/** The translator's state as a value and what each token does to it. */
module TranslatorSpec {
  import opened Values
  import opened Cfg
  import opened Wasm

  datatype CFKind = CfFunction | CfBlock | CfIf | CfElse | CfLoop

  /** A control-stack entry; its phi is the phi of the block `end`. */
  datatype CFEntry = CFEntry(
    kind: CFKind, sig: BlockType, end: Label, els: Option<Label>,
    outerStack: nat, outerBlocks: nat, reachable: bool, elseReachable: bool)

  datatype BlockEntry = BlockEntry(sig: BlockType, block: Label)

  datatype TState = TState(
    stack: seq<Opd>, cf: seq<CFEntry>, labels: seq<BlockEntry>, depth: nat,
    blocks: Graph, cur: Label, next: nat)

  /** Every block the state names exists. */
  ghost predicate InRange(s: TState) {
    && s.cur < |s.blocks|
    && (forall i :: 0 <= i < |s.cf| ==> s.cf[i].end < |s.blocks|)
    && (forall i :: 0 <= i < |s.cf| && s.cf[i].els.Some? ==> s.cf[i].els.value < |s.blocks|)
    && (forall i :: 0 <= i < |s.labels| ==> s.labels[i].block < |s.blocks|)
  }

  predicate Live(s: TState) { |s.cf| == 0 || s.cf[|s.cf| - 1].reachable }

  function Top(s: TState): CFEntry
    requires |s.cf| > 0
  {
    s.cf[|s.cf| - 1]
  }

  // ----- operand stack -----

  function Push(s: TState, o: Opd): TState { s.(stack := s.stack + [o]) }

  predicate CanPop(s: TState) {
    |s.stack| > 0 && (|s.cf| > 0 ==> |s.stack| > Top(s).outerStack)
  }

  function TopOpd(s: TState): Opd
    requires CanPop(s)
  {
    s.stack[|s.stack| - 1]
  }

  function Drop(s: TState): TState
    requires CanPop(s)
  {
    s.(stack := s.stack[..|s.stack| - 1])
  }

  predicate CanPopTy(s: TState, t: Ty) { CanPop(s) && TypeOf(TopOpd(s)) == t }

  // ----- graph building -----

  /** Emission touches neither the operands nor the frames. */
  predicate SameStacks(s: TState, s': TState) {
    s'.stack == s.stack && s'.cf == s.cf && s'.labels == s.labels && s'.depth == s.depth
  }

  function NewBlock(s: TState, sig: BlockType): TState {
    s.(blocks := s.blocks + [Blk(sig, if sig.Some? then Some(s.next) else None, [], [])],
       next := if sig.Some? then s.next + 1 else s.next)
  }

  function Emit(s: TState, i: Inst): TState
    requires s.cur < |s.blocks|
  {
    s.(blocks := s.blocks[s.cur := s.blocks[s.cur].(insts := s.blocks[s.cur].insts + [i])])
  }

  /** Emit an instruction that defines the next register. */
  function EmitDef(s: TState, i: Inst): TState
    requires s.cur < |s.blocks|
  {
    Emit(s, i).(next := s.next + 1)
  }

  function At(s: TState, b: Label): TState { s.(cur := b) }

  function WithIncoming(g: Graph, t: Label, v: Opd, from: Label): Graph
    requires t < |g|
  {
    g[t := g[t].(incoming := g[t].incoming + [In(v, from)])]
  }

  function AddIncoming(s: TState, t: Label, v: Opd, from: Label): TState
    requires t < |s.blocks|
  {
    s.(blocks := WithIncoming(s.blocks, t, v, from))
  }

  /** i32_to_bool, then a conditional branch on the result. */
  function EmitCondBr(s: TState, c: Opd, t: Label, f: Label): TState
    requires s.cur < |s.blocks|
  {
    var s1 := EmitDef(s, Bin(s.next, LCmp(Ne), c, Const(Zero(I32))));
    Emit(s1, CondBr(Reg(s.next, I1), t, f))
  }

  /** Branch to a throwing block when the condition holds; go on in a fresh block. */
  function TrapIf(s: TState, c: Opd): (r: TState)
    requires s.cur < |s.blocks|
    ensures SameStacks(s, r) && |r.blocks| >= |s.blocks| && r.cur < |r.blocks|
  {
    var t := |s.blocks|;
    var s1 := NewBlock(NewBlock(s, None), None);
    var s2 := Emit(s1, CondBr(c, t, t + 1));
    var s3 := Emit(Emit(At(s2, t), CallThrow), Unreachable);
    At(s3, t + 1)
  }

  // ----- numeric instructions -----

  function EmitBin(s: TState, op: LOp, a: Opd, b: Opd): (r: TState)
    requires s.cur < |s.blocks|
    ensures SameStacks(s, r) && r.cur == s.cur && |r.blocks| == |s.blocks| && r.next == s.next + 1
    ensures !Closed(r.blocks[r.cur])
  {
    EmitDef(s, Bin(s.next, op, a, b))
  }

  function TrapZeroDiv(s: TState, b: Opd): (r: TState)
    requires s.cur < |s.blocks|
    ensures SameStacks(s, r) && |r.blocks| >= |s.blocks| && r.cur < |r.blocks|
  {
    var s1 := EmitBin(s, LCmp(Eq), b, Const(Zero(TypeOf(b))));
    TrapIf(s1, Reg(s.next, I1))
  }

  /** Compare the operands with the least value and with minus one and join the two answers. */
  function PairTest(s: TState, t: Ty, pred: Pred, join: LOp, a: Opd, b: Opd): (r: TState)
    requires s.cur < |s.blocks|
    ensures SameStacks(s, r) && r.cur == s.cur && |r.blocks| == |s.blocks| && r.next == s.next + 3
    ensures !Closed(r.blocks[r.cur])
  {
    var s1 := EmitBin(s, LCmp(pred), a, Const(MinSigned(t)));
    var s2 := EmitBin(s1, LCmp(pred), b, Const(MinusOne(t)));
    EmitBin(s2, join, Reg(s.next, I1), Reg(s1.next, I1))
  }

  /** Division by zero or overflow, left in the last register. */
  function SZeroTest(s: TState, a: Opd, b: Opd): (r: TState)
    requires s.cur < |s.blocks|
    ensures SameStacks(s, r) && r.cur == s.cur && |r.blocks| == |s.blocks| && r.next == s.next + 5
    ensures !Closed(r.blocks[r.cur])
  {
    var s1 := PairTest(s, TypeOf(a), Eq, LAnd, a, b);
    var s2 := EmitBin(s1, LCmp(Eq), b, Const(Zero(TypeOf(b))));
    EmitBin(s2, LOr, Reg(s1.next, I1), Reg(s1.next - 1, I1))
  }

  function TrapSZeroDiv(s: TState, a: Opd, b: Opd): (r: TState)
    requires s.cur < |s.blocks|
    ensures SameStacks(s, r) && |r.blocks| >= |s.blocks| && r.cur < |r.blocks|
  {
    TrapIf(SZeroTest(s, a, b), Reg(s.next + 4, I1))
  }

  /** Two fresh blocks after the insertion point: the division, and the join with its phi. */
  function SRemFork(s: TState, t: IntTy, a: Opd, b: Opd): (r: TState)
    requires s.cur < |s.blocks|
    ensures SameStacks(s, r) && |r.blocks| >= |s.blocks| && r.cur < |r.blocks|
  {
    var thn := |s.blocks|;
    var s1 := PairTest(NewBlock(NewBlock(s, None), Some(t)), t, Ne, LOr, a, b);
    At(Emit(s1, CondBr(Reg(s1.next - 1, I1), thn, thn + 1)), thn)
  }

  /** The division in its own block, then the join: its remainder from there, zero from pre. */
  function SRemJoin(s: TState, t: IntTy, a: Opd, b: Opd, pre: Label, end: Label, phi: nat): (r: TState)
    requires s.cur < |s.blocks| && end < |s.blocks|
    ensures r.stack != [] && SameStacks(Push(s, r.stack[|r.stack| - 1]), r)
  {
    var s1 := EmitBin(s, LSRem, a, b);
    var s2 := At(Emit(s1, Br(end)), end);
    var s3 := AddIncoming(AddIncoming(s2, end, Reg(s.next, TypeOf(a)), s.cur), end, Const(Zero(t)), pre);
    Push(s3, Reg(phi, t))
  }

  /** The signed remainder goes round the division when it would overflow. */
  function EmitSRem(s: TState, t: IntTy, a: Opd, b: Opd): (r: TState)
    requires s.cur < |s.blocks|
    ensures r.stack != [] && SameStacks(Push(s, r.stack[|r.stack| - 1]), r) && TypeOf(r.stack[|r.stack| - 1]) == t
  {
    var s0 := TrapZeroDiv(s, b);
    SRemJoin(SRemFork(s0, t, a, b), t, a, b, s0.cur, |s0.blocks| + 1, s0.next)
  }

  function BinPush(s: TState, op: LOp, a: Opd, b: Opd): (r: TState)
    requires s.cur < |s.blocks|
    ensures r.stack == s.stack + [Reg(s.next, TypeOf(a))] && r.cf == s.cf && r.labels == s.labels && r.depth == s.depth
  {
    Push(EmitBin(s, op, a, b), Reg(s.next, TypeOf(a)))
  }

  function EmitBinary(s: TState, t: IntTy, op: BinOp, a: Opd, b: Opd): (r: TState)
    requires s.cur < |s.blocks|
    ensures r.stack != [] && SameStacks(Push(s, r.stack[|r.stack| - 1]), r)
    ensures TypeOf(r.stack[|r.stack| - 1]) == if op == RemS then t else TypeOf(a)
  {
    match op
    case Add => BinPush(s, LAdd, a, b)
    case Sub => BinPush(s, LSub, a, b)
    case Mul => BinPush(s, LMul, a, b)
    case DivU => BinPush(TrapZeroDiv(s, b), LUDiv, a, b)
    case RemU => BinPush(TrapZeroDiv(s, b), LURem, a, b)
    case DivS => BinPush(TrapSZeroDiv(s, a, b), LSDiv, a, b)
    case RemS => EmitSRem(s, t, a, b)
  }

  /** An I1 condition widened to I32 and pushed. */
  function PushBool(s: TState, c: Opd): (r: TState)
    requires s.cur < |s.blocks|
    ensures r.stack != [] && SameStacks(Push(s, r.stack[|r.stack| - 1]), r)
    ensures TypeOf(r.stack[|r.stack| - 1]) == I32
  {
    var s1 := EmitDef(s, ZExt(s.next, c));
    Push(s1, Reg(s.next, I32))
  }

  /** Binary operators and comparisons pop any two operands of equal type: the opcode's own type is
      not looked at. */
  function StepNum(s: TState, op: NumOp): Option<TState>
    requires s.cur < |s.blocks|
  {
    match op
    case Eqz(t) =>
      if !CanPopTy(s, t) then None
      else
        var s1 := EmitBin(Drop(s), LCmp(Eq), TopOpd(s), Const(Zero(t)));
        Some(PushBool(s1, Reg(s.next, I1)))
    case Rel(_, r) =>
      if !CanPop(s) then None
      else
        var b, s1 := TopOpd(s), Drop(s);
        if !CanPopTy(s1, TypeOf(b)) then None
        else
          var s2 := EmitBin(Drop(s1), LCmp(r), TopOpd(s1), b);
          Some(PushBool(s2, Reg(s.next, I1)))
    case Arith(t, o) =>
      if !CanPop(s) then None
      else
        var b, s1 := TopOpd(s), Drop(s);
        if !CanPopTy(s1, TypeOf(b)) || !Divisible(o, TypeOf(b)) then None
        else Some(EmitBinary(Drop(s1), t, o, TopOpd(s1), b))
  }

  /** The overflow test of the signed division throws on operands that are not integers. */
  predicate Divisible(op: BinOp, t: Ty) { op == DivS ==> t == I32 || t == I64 }

  // ----- control -----

  /** Enter dead code: cut the operand stack back to the frame's floor. */
  function SkipUnreachable(s: TState): Option<TState>
    requires |s.cf| > 0
  {
    if Top(s).outerStack > |s.stack| then None
    else
      Some(s.(stack := s.stack[..Top(s).outerStack],
              cf := s.cf[|s.cf| - 1 := Top(s).(reachable := false)],
              depth := 0))
  }

  function PushFrame(s: TState, k: CFKind, sig: BlockType, end: Label, els: Option<Label>, lab: BlockEntry): TState {
    s.(cf := s.cf + [CFEntry(k, sig, end, els, |s.stack|, |s.labels|, true, true)],
       labels := s.labels + [lab])
  }

  function BranchDepth(s: TState, n: nat): Option<BlockEntry> {
    if n < |s.labels| then Some(s.labels[|s.labels| - 1 - n]) else None
  }

  /** Hand the result v to the phi of each target in turn. */
  function AddAll(g: Graph, ts: seq<Label>, v: Opd, from: Label): (g': Graph)
    requires forall k :: 0 <= k < |ts| ==> ts[k] < |g|
    ensures |g'| == |g|
    decreases |ts|
  {
    if ts == [] then g else AddAll(WithIncoming(g, ts[0], v, from), ts[1..], v, from)
  }

  /** Hand v to the phis of ts and close the insertion block with a terminator. */
  function HandOver(s: TState, ts: seq<Label>, v: Opd, term: Inst): (r: TState)
    requires forall k :: 0 <= k < |ts| ==> ts[k] < |s.blocks|
    requires s.cur < |s.blocks|
    ensures SameStacks(s, r) && |r.blocks| >= |s.blocks|
  {
    Emit(s.(blocks := AddAll(s.blocks, ts, v, s.cur)), term)
  }

  /** Close the insertion block, handing over a result if there is one. */
  function Leave(s: TState, ts: seq<Label>, v: Option<Opd>, term: Inst): (r: TState)
    requires forall k :: 0 <= k < |ts| ==> ts[k] < |s.blocks|
    requires s.cur < |s.blocks|
    ensures SameStacks(s, r) && |r.blocks| >= |s.blocks|
  {
    if v.Some? then HandOver(s, ts, v.value, term) else Emit(s, term)
  }

  function JumpTo(s: TState, l: BlockEntry): Option<TState>
    requires s.cur < |s.blocks| && l.block < |s.blocks|
  {
    if l.sig.None? then Some(Leave(s, [l.block], None, Br(l.block)))
    else if !CanPopTy(s, l.sig.value) then None
    else Some(Leave(Drop(s), [l.block], Some(TopOpd(s)), Br(l.block)))
  }

  /** The fall-through block and the test of the condition. */
  function BrIfTest(s: TState, c: Opd): (r: TState)
    requires s.cur < |s.blocks|
    ensures SameStacks(s, r) && |r.blocks| >= |s.blocks|
  {
    EmitDef(NewBlock(s, None), Inst.Bin(s.next, LCmp(Ne), c, Const(Zero(I32))))
  }

  function StepBrIf(s: TState, n: nat): Option<TState>
    requires InRange(s)
  {
    if !CanPopTy(s, I32) then None
    else
      var c, s1 := TopOpd(s), Drop(s);
      var l :- BranchDepth(s1, n);
      if l.sig.Some? && !CanPopTy(s1, l.sig.value) then None
      else
        var s2 := BrIfTest(s1, c);
        var v := if l.sig.Some? then Some(TopOpd(s1)) else None;
        Some(At(Leave(s2, [l.block], v, CondBr(Reg(s1.next, I1), l.block, |s1.blocks|)), |s1.blocks|))
  }

  function Targets(s: TState, ns: seq<nat>): (ts: seq<Label>)
    requires forall k :: 0 <= k < |ns| ==> ns[k] < |s.labels|
    ensures |ts| == |ns|
    ensures forall k :: 0 <= k < |ns| ==> ts[k] == s.labels[|s.labels| - 1 - ns[k]].block
  {
    seq(|ns|, k requires 0 <= k < |ns| => s.labels[|s.labels| - 1 - ns[k]].block)
  }

  predicate SameSig(s: TState, ns: seq<nat>, sig: BlockType) {
    forall k :: 0 <= k < |ns| ==> BranchDepth(s, ns[k]).Some? && BranchDepth(s, ns[k]).value.sig == sig
  }

  function StepBrTable(s: TState, ns: seq<nat>, d: nat): Option<TState>
    requires InRange(s) && |s.cf| > 0
  {
    if !CanPopTy(s, I32) then None
    else
      var c, s1 := TopOpd(s), Drop(s);
      var l :- BranchDepth(s1, d);
      if (l.sig.Some? && !CanPopTy(s1, l.sig.value)) || !SameSig(s1, ns, l.sig) then None
      else
        var ts := Targets(s1, ns);
        var term := Switch(c, ts, l.block);
        if l.sig.None? then SkipUnreachable(Leave(s1, [l.block] + ts, None, term))
        else SkipUnreachable(Leave(Drop(s1), [l.block] + ts, Some(TopOpd(s1)), term))
  }

  /** The common start of else and end: a live frame hands its result to the end block. */
  function CloseFrame(s: TState): (r: Option<TState>)
    requires InRange(s) && |s.cf| > 0
    ensures r.Some? ==> r.value == s.(stack := r.value.stack, blocks := r.value.blocks)
    ensures r.Some? ==> |r.value.blocks| == |s.blocks|
  {
    var e := Top(s);
    var s1 :- if e.reachable then JumpTo(s, BlockEntry(e.sig, e.end)) else Some(s);
    if |s1.stack| != e.outerStack then None else Some(s1)
  }

  /** Go on in the else block; the entry is no longer an if. */
  function OpenElse(s: TState): TState
    requires |s.cf| > 0 && Top(s).els.Some?
  {
    var e := Top(s);
    At(s, e.els.value).(
      cf := s.cf[|s.cf| - 1 := e.(kind := CfElse, reachable := e.elseReachable, els := None)])
  }

  function StepElse(s: TState): Option<TState>
    requires InRange(s) && |s.cf| > 0
  {
    var s1 :- CloseFrame(s);
    if Top(s).els.None? || Top(s).kind != CfIf then None
    else Some(OpenElse(s1))
  }

  /** Push the result of a finished frame: its phi, or a zero when nothing ever reached the phi,
      which is then erased. */
  function PushResult(s: TState, sig: BlockType, end: Label): TState
    requires end < |s.blocks|
  {
    if sig.None? then s
    else if s.blocks[end].incoming != [] && s.blocks[end].phi.Some? then
      Push(s, Reg(s.blocks[end].phi.value, sig.value))
    else
      Push(s.(blocks := s.blocks[end := s.blocks[end].(phi := None)]), Const(Zero(sig.value)))
  }

  /** An if without an else has its else block fall through to the end. */
  function ToEnd(s: TState, e: CFEntry): TState
    requires e.els.Some? ==> e.els.value < |s.blocks|
  {
    if e.els.Some? then At(Emit(At(s, e.els.value), Br(e.end)), e.end) else At(s, e.end)
  }

  function PopFrame(s: TState): TState
    requires |s.cf| > 0 && Top(s).outerBlocks <= |s.labels|
  {
    s.(labels := s.labels[..Top(s).outerBlocks], cf := s.cf[..|s.cf| - 1])
  }

  function StepEnd(s: TState): Option<TState>
    requires InRange(s) && |s.cf| > 0
  {
    var e := Top(s);
    var s1 :- CloseFrame(s);
    if e.outerBlocks > |s1.labels| then None
    else Some(PushResult(ToEnd(PopFrame(s1), e), e.sig, e.end))
  }

  function StepSelect(s: TState): Option<TState>
    requires s.cur < |s.blocks|
  {
    if !CanPopTy(s, I32) || !CanPop(Drop(s)) || !CanPopTy(Drop(Drop(s)), TypeOf(TopOpd(Drop(s)))) then None
    else
      var c, s1 := TopOpd(s), Drop(s);
      var b, s2 := TopOpd(s1), Drop(s1);
      var a, s3 := TopOpd(s2), Drop(s2);
      var s4 := EmitBin(s3, LCmp(Ne), c, Const(Zero(I32)));
      Some(Push(EmitDef(s4, Select(s4.next, Reg(s3.next, I1), a, b)), Reg(s4.next, TypeOf(a))))
  }

  function StepPlain(locals: seq<WTy>, s: TState, i: Simple): Option<TState>
    requires InRange(s) && |s.cf| > 0
  {
    match i
    case INop => Some(s)
    case IDrop => if CanPop(s) then Some(Drop(s)) else None
    case ISelect => StepSelect(s)
    case IUnreachable => SkipUnreachable(Emit(TrapIf(s, Const(FromBool(true))), Unreachable))
    case IReturn =>
      var s1 :- JumpTo(s, BlockEntry(s.cf[0].sig, s.cf[0].end));
      SkipUnreachable(s1)
    case IConst(v) => Some(Push(s, Const(v)))
    case IGetLocal(x) =>
      if x >= |locals| then None
      else Some(Push(EmitDef(s, Load(s.next, x)), Reg(s.next, locals[x])))
    case ISetLocal(x) =>
      if x >= |locals| || !CanPopTy(s, locals[x]) then None
      else Some(Emit(Drop(s), Store(x, TopOpd(s))))
    case ITeeLocal(x) =>
      if x >= |locals| || !CanPopTy(s, locals[x]) then None
      else Some(Emit(s, Store(x, TopOpd(s))))
    case INum(op) => StepNum(s, op)
    case IBr(n) =>
      var l :- BranchDepth(s, n);
      var s1 :- JumpTo(s, l);
      SkipUnreachable(s1)
    case IBrIf(n) => StepBrIf(s, n)
    case IBrTable(ns, d) => StepBrTable(s, ns, d)
  }

  function StepBlock(s: TState, bt: BlockType): TState {
    var end := |s.blocks|;
    PushFrame(NewBlock(s, bt), CfBlock, bt, end, None, BlockEntry(bt, end))
  }

  function LoopHead(s: TState, bt: BlockType): (r: TState)
    requires s.cur < |s.blocks|
    ensures SameStacks(s, r) && |r.blocks| >= |s.blocks|
  {
    var loop := |s.blocks|;
    At(Emit(NewBlock(NewBlock(s, None), bt), Br(loop)), loop)
  }

  function StepLoop(s: TState, bt: BlockType): TState
    requires s.cur < |s.blocks|
  {
    var loop := |s.blocks|;
    PushFrame(LoopHead(s, bt), CfLoop, bt, loop + 1, None, BlockEntry(None, loop))
  }

  /** Fresh then, else and end blocks, and the branch on the condition. */
  function IfHead(s: TState, c: Opd, bt: BlockType): (r: TState)
    requires s.cur < |s.blocks|
    ensures SameStacks(s, r) && |r.blocks| >= |s.blocks|
  {
    var thn := |s.blocks|;
    At(EmitCondBr(NewBlock(NewBlock(NewBlock(s, None), None), bt), c, thn, thn + 1), thn)
  }

  function StepIf(s: TState, bt: BlockType): Option<TState>
    requires s.cur < |s.blocks|
  {
    if !CanPopTy(s, I32) then None
    else
      var thn := |s.blocks|;
      var els, end := thn + 1, thn + 2;
      Some(PushFrame(IfHead(Drop(s), TopOpd(s), bt), CfIf, bt, end, Some(els), BlockEntry(bt, end)))
  }

  function StepLive(locals: seq<WTy>, s: TState, t: Tok): Option<TState>
    requires InRange(s) && |s.cf| > 0
  {
    match t
    case TPlain(i) => StepPlain(locals, s, i)
    case TBlock(bt) => Some(StepBlock(s, bt))
    case TLoop(bt) => Some(StepLoop(s, bt))
    case TIf(bt) => StepIf(s, bt)
    case TElse => StepElse(s)
    case TEnd => StepEnd(s)
  }

  /** In dead code nested frames are only counted; the matching else or end is handled as usual. */
  function StepDead(s: TState, t: Tok): Option<TState>
    requires InRange(s) && |s.cf| > 0
  {
    match t
    case TPlain(_) => Some(s)
    case TBlock(_) => Some(s.(depth := s.depth + 1))
    case TLoop(_) => Some(s.(depth := s.depth + 1))
    case TIf(_) => Some(s.(depth := s.depth + 1))
    case TElse => if s.depth == 0 then StepElse(s) else Some(s)
    case TEnd => if s.depth == 0 then StepEnd(s) else Some(s.(depth := s.depth - 1))
  }

  /** None is a throw, a failed assertion, or a token after the body's last end. */
  function Step(locals: seq<WTy>, s: TState, t: Tok): Option<TState>
    requires InRange(s)
  {
    if |s.cf| == 0 then None
    else if Top(s).reachable then StepLive(locals, s, t)
    else StepDead(s, t)
  }

  // ----- a whole function -----

  /** Parameters, then declared locals at zero, stored into their cells. */
  function StoreLocals(s: TState, params: seq<WTy>, extra: seq<WTy>, n: nat): (r: TState)
    requires s.cur < |s.blocks| && n <= |params| + |extra|
    ensures SameStacks(s, r) && r.cur == s.cur && |r.blocks| == |s.blocks| && r.next == s.next
  {
    if n == 0 then s
    else
      var s1 := StoreLocals(s, params, extra, n - 1);
      var k := n - 1;
      Emit(s1, Store(k, if k < |params| then Param(k, params[k]) else Const(Zero(extra[k - |params|]))))
  }

  const FEND: Label := 0
  const FENTRY: Label := 1

  /** The end block with the result phi, the outermost frame, and the entry block. */
  function Opening(ret: BlockType): TState {
    var s0 := NewBlock(TState([], [], [], 0, [], 0, 0), ret);
    var s1 := PushFrame(s0, CfFunction, ret, FEND, None, BlockEntry(ret, FEND));
    At(NewBlock(s1, None), FENTRY)
  }

  /** The state at the first token of a body. */
  function Start(f: Func): TState {
    StoreLocals(Opening(f.ret), f.params, f.extra, |f.params| + |f.extra|)
  }

  /** The return from the end block, once every frame is closed. */
  function FinishFunction(f: Func, s: TState): Option<TState>
    requires s.cur < |s.blocks|
  {
    if |s.cf| != 0 || s.cur != FEND then None
    else if f.ret.None? then Some(Emit(s, Ret(None)))
    else if !CanPopTy(s, f.ret.value) then None
    else Some(Emit(Drop(s), Ret(Some(TopOpd(s)))))
  }
}

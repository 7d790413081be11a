/** The translator as the object that the source drives: its stacks, its dead-code counter and its builder,
    updated in place in the source's own order. Every method is proved against the token functions. */
module Translator {
  import opened Values
  import opened Cfg
  import opened Wasm
  import opened TranslatorSpec
  import opened Invariant
  import opened Steps
  import opened Structure
  import opened Acceptance

  lemma AddOne(g: Graph, t: Label, v: Opd, from: Label)
    requires t < |g|
    ensures AddAll(g, [t], v, from) == WithIncoming(g, t, v, from)
  {
    assert [t][1..] == [];
  }

  /** Making blocks and popping the condition do not interfere. */
  lemma PopCommutes(s: TState, bt: BlockType)
    ensures var n := NewBlock(NewBlock(NewBlock(s, None), None), bt);
            && CanPopTy(n, I32) == CanPopTy(s, I32)
            && (CanPop(s) ==> TopOpd(n) == TopOpd(s) && Drop(n) == NewBlock(NewBlock(NewBlock(Drop(s), None), None), bt))
  {
  }

  /** The result is pushed the same whether the frame has been popped or not. */
  lemma EndCommutes(c: TState, e: CFEntry)
    requires |c.cf| > 0 && e == Top(c) && e.outerBlocks <= |c.labels| && e.end < |c.blocks|
    requires e.els.Some? ==> e.els.value < |c.blocks|
    ensures |ToEnd(c, e).blocks| == |c.blocks|
    ensures PushResult(ToEnd(PopFrame(c), e), e.sig, e.end) ==
            PushResult(ToEnd(c, e), e.sig, e.end).(labels := c.labels[..e.outerBlocks], cf := c.cf[..|c.cf| - 1])
  {
  }

  /** The pair br_if adds first does not interfere with the block and the test it makes next. */
  lemma PairCommutes(s: TState, c: Opd, t: Label, v: Opd)
    requires s.cur < |s.blocks| && t < |s.blocks|
    ensures var s2 := BrIfTest(s, c);
            BrIfTest(AddIncoming(s, t, v, s.cur), c) == s2.(blocks := AddAll(s2.blocks, [t], v, s2.cur))
  {
    var s2, s3 := BrIfTest(s, c), BrIfTest(AddIncoming(s, t, v, s.cur), c);
    AddOne(s2.blocks, t, v, s2.cur);
    forall b | 0 <= b < |s2.blocks|
      ensures s3.blocks[b] == WithIncoming(s2.blocks, t, v, s2.cur)[b]
    {
    }
    assert s3.blocks == WithIncoming(s2.blocks, t, v, s2.cur);
  }

  lemma {:induction false} AddAllSnoc(g: Graph, ts: seq<Label>, t: Label, v: Opd, from: Label)
    requires t < |g| && forall k :: 0 <= k < |ts| ==> ts[k] < |g|
    ensures AddAll(g, ts + [t], v, from) == WithIncoming(AddAll(g, ts, v, from), t, v, from)
    decreases |ts|
  {
    if ts == [] {
      assert [] + [t] == [t];
      AddOne(g, t, v, from);
    } else {
      assert (ts + [t])[1..] == ts[1..] + [t];
      AddAllSnoc(WithIncoming(g, ts[0], v, from), ts[1..], t, v, from);
    }
  }

  /** The last instruction of a block replaced. */
  function WithLast(g: Graph, b: Label, i: Inst): Graph
    requires b < |g| && |g[b].insts| > 0
  {
    g[b := g[b].(insts := g[b].insts[|g[b].insts| - 1 := i])]
  }

  /** One more case of a switch, and its pair. */
  lemma CaseSnoc(s: TState, d: Label, ts: seq<Label>, t: Label, v: Option<Opd>, c: Opd)
    requires s.cur < |s.blocks| && d < |s.blocks| && t < |s.blocks| && forall k :: 0 <= k < |ts| ==> ts[k] < |s.blocks|
    ensures var r := Leave(s, [d] + ts, v, Switch(c, ts, d));
            var r' := Leave(s, [d] + (ts + [t]), v, Switch(c, ts + [t], d));
            && r.cur == s.cur && r' == r.(blocks := r'.blocks)
            && |r.blocks| == |s.blocks| && |r.blocks[s.cur].insts| > 0
            && Last(r.blocks[s.cur].insts) == Switch(c, ts, d)
            && var g := WithLast(r.blocks, s.cur, Switch(c, ts + [t], d));
               r'.blocks == if v.None? then g else WithIncoming(g, t, v.value, s.cur)
  {
    var r, r' := Leave(s, [d] + ts, v, Switch(c, ts, d)), Leave(s, [d] + (ts + [t]), v, Switch(c, ts + [t], d));
    if v.Some? {
      assert [d] + (ts + [t]) == ([d] + ts) + [t];
      AddAllSnoc(s.blocks, [d] + ts, t, v.value, s.cur);
    }
    var g := WithLast(r.blocks, s.cur, Switch(c, ts + [t], d));
    var g' := if v.None? then g else WithIncoming(g, t, v.value, s.cur);
    forall b | 0 <= b < |s.blocks|
      ensures r'.blocks[b] == g'[b]
    {
    }
  }

  class FunctionTranslator {
    var evalStack: seq<Opd>
    var cfEntries: seq<CFEntry>
    var blockEntries: seq<BlockEntry>
    var unreachableDepth: nat
    var blocks: Graph
    var insert: Label
    var nextReg: nat

    function State(): TState
      reads this
    {
      TState(evalStack, cfEntries, blockEntries, unreachableDepth, blocks, insert, nextReg)
    }

    constructor ()
      ensures State() == TState([], [], [], 0, [], 0, 0)
    {
      evalStack, cfEntries, blockEntries := [], [], [];
      unreachableDepth, blocks, insert, nextReg := 0, [], 0, 0;
    }

    // ----- builder -----

    method AppendBlock(sig: BlockType) returns (b: Label)
      modifies this
      ensures State() == NewBlock(old(State()), sig) && b == |old(blocks)| && |blocks| == b + 1 && insert == old(insert)
      ensures nextReg == old(nextReg) + if sig.Some? then 1 else 0
    {
      b := |blocks|;
      var phi := None;
      if sig.Some? {
        phi := Some(nextReg);
        nextReg := nextReg + 1;
      }
      blocks := blocks + [Blk(sig, phi, [], [])];
    }

    method PositionAtEnd(b: Label)
      modifies this
      ensures State() == At(old(State()), b)
    {
      insert := b;
    }

    method Build(i: Inst)
      requires insert < |blocks|
      modifies this`blocks
      ensures insert == old(insert) < |blocks| == |old(blocks)| && State() == Emit(old(State()), i)
    {
      blocks := blocks[insert := blocks[insert].(insts := blocks[insert].insts + [i])];
    }

    method BuildBin(op: LOp, a: Opd, b: Opd) returns (r: Opd)
      requires insert < |blocks|
      modifies this
      ensures insert == old(insert) < |blocks| == |old(blocks)| && State() == EmitBin(old(State()), op, a, b)
      ensures r == Reg(old(nextReg), LResultTy(op, TypeOf(a)))
    {
      r := Reg(nextReg, LResultTy(op, TypeOf(a)));
      Build(Inst.Bin(nextReg, op, a, b));
      nextReg := nextReg + 1;
    }

    method AddPair(t: Label, v: Opd, from: Label)
      requires t < |blocks|
      modifies this`blocks
      ensures State() == AddIncoming(old(State()), t, v, from) && |blocks| == |old(blocks)| && insert == old(insert)
    {
      blocks := blocks[t := blocks[t].(incoming := blocks[t].incoming + [In(v, from)])];
    }

    // ----- stacks -----

    method PushOpd(o: Opd)
      modifies this`evalStack
      ensures State() == Push(old(State()), o)
    {
      evalStack := evalStack + [o];
    }

    /** ok is false where the source throws. */
    method Peek() returns (ok: bool, o: Opd)
      ensures ok == CanPop(State()) && (ok ==> o == TopOpd(State()))
    {
      ok, o := false, Const(Zero(I32));
      if |evalStack| == 0 { return; }
      if |cfEntries| > 0 && |evalStack| <= cfEntries[|cfEntries| - 1].outerStack { return; }
      ok, o := true, evalStack[|evalStack| - 1];
    }

    method Pop() returns (ok: bool, o: Opd)
      modifies this`evalStack
      ensures ok == old(CanPop(State()))
      ensures ok ==> o == old(TopOpd(State())) && State() == Drop(old(State()))
      ensures !ok ==> State() == old(State())
    {
      ok, o := Peek();
      if ok {
        evalStack := evalStack[..|evalStack| - 1];
      }
    }

    method PopTyped(t: Ty) returns (ok: bool, o: Opd)
      modifies this`evalStack
      ensures ok == old(CanPopTy(State(), t))
      ensures ok ==> o == old(TopOpd(State())) && State() == Drop(old(State()))
    {
      ok, o := Pop();
      if ok && TypeOf(o) != t {
        ok := false;
      }
    }

    /** The source asserts that the frame around is reachable. */
    method PushCFEntry(k: CFKind, sig: BlockType, end: Label, els: Option<Label>)
      requires |cfEntries| > 0 ==> cfEntries[|cfEntries| - 1].reachable
      modifies this`cfEntries
      ensures cfEntries == old(cfEntries) + [CFEntry(k, sig, end, els, |evalStack|, |blockEntries|, true, true)]
    {
      cfEntries := cfEntries + [CFEntry(k, sig, end, els, |evalStack|, |blockEntries|, true, true)];
    }

    method PushBlockEntry(sig: BlockType, b: Label)
      modifies this`blockEntries
      ensures blockEntries == old(blockEntries) + [BlockEntry(sig, b)]
    {
      blockEntries := blockEntries + [BlockEntry(sig, b)];
    }

    method SkipRest() returns (ok: bool)
      requires |cfEntries| > 0
      modifies this
      ensures var r := SkipUnreachable(old(State())); ok == r.Some? && (ok ==> State() == r.value)
    {
      var up := cfEntries[|cfEntries| - 1];
      if up.outerStack > |evalStack| { return false; }
      evalStack := evalStack[..up.outerStack];
      cfEntries := cfEntries[|cfEntries| - 1 := up.(reachable := false)];
      unreachableDepth := 0;
      return true;
    }

    // ----- traps and arithmetic -----

    method BuildTrapIf(c: Opd)
      requires insert < |blocks|
      modifies this
      ensures insert < |blocks| && State() == TrapIf(old(State()), c)
    {
      var then_ := AppendBlock(None);
      var skip := AppendBlock(None);
      Build(CondBr(c, then_, skip));
      PositionAtEnd(then_);
      Build(CallThrow);
      Build(Unreachable);
      PositionAtEnd(skip);
    }

    method BuildTrapZeroDiv(b: Opd)
      requires insert < |blocks|
      modifies this
      ensures insert < |blocks| && State() == TrapZeroDiv(old(State()), b)
    {
      var zero := BuildBin(LCmp(Eq), b, Const(Zero(TypeOf(b))));
      BuildTrapIf(zero);
    }

    method BuildTrapSZeroDiv(a: Opd, b: Opd)
      requires insert < |blocks|
      modifies this
      ensures insert < |blocks| && State() == TrapSZeroDiv(old(State()), a, b)
    {
      hide EmitBin, TrapIf, MinSigned, MinusOne;
      var t := TypeOf(a);
      var lhsMin := BuildBin(LCmp(Eq), a, Const(MinSigned(t)));
      var rhsMinus1 := BuildBin(LCmp(Eq), b, Const(MinusOne(t)));
      var overflow := BuildBin(LAnd, lhsMin, rhsMinus1);
      var divZero := BuildBin(LCmp(Eq), b, Const(Zero(TypeOf(b))));
      var bad := BuildBin(LOr, divZero, overflow);
      BuildTrapIf(bad);
    }

    /** The test of emit_srem and the branch on it. */
    method BuildSRemFork(t: IntTy, a: Opd, b: Opd) returns (then_: Label, end: Label)
      requires insert < |blocks|
      modifies this
      ensures then_ == insert < |blocks| && State() == SRemFork(old(State()), t, a, b)
      ensures then_ == |old(blocks)| && end == then_ + 1 < |blocks|
    {
      hide EmitBin, Emit, NewBlock, MinSigned, MinusOne;
      then_ := AppendBlock(None);
      end := AppendBlock(Some(t));
      var left := BuildBin(LCmp(Ne), a, Const(MinSigned(t)));
      var right := BuildBin(LCmp(Ne), b, Const(MinusOne(t)));
      var noOverflow := BuildBin(LOr, left, right);
      Build(CondBr(noOverflow, then_, end));
      PositionAtEnd(then_);
    }

    method BuildSRem(t: IntTy, a: Opd, b: Opd) returns (r: Opd)
      requires insert < |blocks|
      modifies this
      ensures insert < |blocks| && Push(State(), r) == EmitSRem(old(State()), t, a, b)
    {
      hide EmitBin, Emit, AddIncoming, TrapZeroDiv, SRemFork;
      BuildTrapZeroDiv(b);
      var pre, phi := insert, nextReg;
      var then_, end := BuildSRemFork(t, a, b);
      var rem := BuildBin(LSRem, a, b);
      Build(Br(end));
      PositionAtEnd(end);
      r := Reg(phi, t);
      AddPair(end, rem, then_);
      AddPair(end, Const(Zero(t)), pre);
    }

    method BuildBinary(t: IntTy, op: BinOp, a: Opd, b: Opd) returns (r: Opd)
      requires insert < |blocks|
      modifies this
      ensures insert < |blocks| && Push(State(), r) == EmitBinary(old(State()), t, op, a, b)
    {
      hide EmitBin, TrapZeroDiv, TrapSZeroDiv, EmitSRem;
      match op
      case Add => r := BuildBin(LAdd, a, b);
      case Sub => r := BuildBin(LSub, a, b);
      case Mul => r := BuildBin(LMul, a, b);
      case DivU => BuildTrapZeroDiv(b); r := BuildBin(LUDiv, a, b);
      case RemU => BuildTrapZeroDiv(b); r := BuildBin(LURem, a, b);
      case DivS => BuildTrapSZeroDiv(a, b); r := BuildBin(LSDiv, a, b);
      case RemS => r := BuildSRem(t, a, b);
    }

    // ----- opcodes -----

    /** i32_to_bool. */
    method BuildToBool(c: Opd) returns (r: Opd)
      requires insert < |blocks|
      modifies this
      ensures insert == old(insert) < |blocks| == |old(blocks)|
      ensures State() == EmitBin(old(State()), LCmp(Ne), c, Const(Zero(I32))) && r == Reg(old(nextReg), I1)
    {
      r := BuildBin(LCmp(Ne), c, Const(Zero(I32)));
    }

    method PushI32(c: Opd)
      requires insert < |blocks|
      modifies this
      ensures State() == PushBool(old(State()), c)
    {
      var r := Reg(nextReg, I32);
      Build(ZExt(nextReg, c));
      nextReg := nextReg + 1;
      PushOpd(r);
    }

    method Numeric(op: NumOp) returns (ok: bool)
      requires insert < |blocks|
      modifies this
      ensures var r := StepNum(old(State()), op); ok == r.Some? && (ok ==> State() == r.value)
    {
      hide EmitBin, PushBool, EmitBinary;
      var a, b, c;
      match op
      case Eqz(t) =>
        ok, a := PopTyped(t);
        if !ok { return; }
        c := BuildBin(LCmp(Eq), a, Const(Zero(t)));
        PushI32(c);
      case Rel(_, p) =>
        ok, b := Pop();
        if !ok { return; }
        ok, a := PopTyped(TypeOf(b));
        if !ok { return; }
        c := BuildBin(LCmp(p), a, b);
        PushI32(c);
      case Arith(t, o) =>
        ok, b := Pop();
        if !ok { return; }
        ok, a := PopTyped(TypeOf(b));
        if !ok || !Divisible(o, TypeOf(b)) { return false; }
        c := BuildBinary(t, o, a, b);
        PushOpd(c);
    }

    method SelectOp() returns (ok: bool)
      requires insert < |blocks|
      modifies this
      ensures var r := StepSelect(old(State())); ok == r.Some? && (ok ==> State() == r.value)
    {
      var c, a, b;
      ok, c := PopTyped(I32);
      if !ok { return; }
      ok, b := Pop();
      if !ok { return; }
      ok, a := PopTyped(TypeOf(b));
      if !ok { return; }
      var cond := BuildToBool(c);
      var r := Reg(nextReg, TypeOf(a));
      Build(Select(nextReg, cond, a, b));
      nextReg := nextReg + 1;
      PushOpd(r);
    }

    method BlockOp(bt: BlockType)
      requires |cfEntries| > 0 ==> cfEntries[|cfEntries| - 1].reachable
      modifies this
      ensures State() == StepBlock(old(State()), bt)
    {
      var end := AppendBlock(bt);
      PushCFEntry(CfBlock, bt, end, None);
      PushBlockEntry(bt, end);
    }

    method LoopOp(bt: BlockType)
      requires insert < |blocks| && (|cfEntries| > 0 ==> cfEntries[|cfEntries| - 1].reachable)
      modifies this
      ensures State() == StepLoop(old(State()), bt)
    {
      var loop := AppendBlock(None);
      var end := AppendBlock(bt);
      Build(Br(loop));
      PositionAtEnd(loop);
      PushCFEntry(CfLoop, bt, end, None);
      PushBlockEntry(None, loop);
    }

    /** The source makes the three blocks before it pops the condition. */
    method IfOp(bt: BlockType) returns (ok: bool)
      requires insert < |blocks| && (|cfEntries| > 0 ==> cfEntries[|cfEntries| - 1].reachable)
      modifies this
      ensures var r := StepIf(old(State()), bt); ok == r.Some? && (ok ==> State() == r.value)
    {
      hide Emit, NewBlock;
      PopCommutes(State(), bt);
      var then_ := AppendBlock(None);
      var else_ := AppendBlock(None);
      var end := AppendBlock(bt);
      var c;
      ok, c := PopTyped(I32);
      if !ok { return; }
      var cond := BuildToBool(c);
      Build(CondBr(cond, then_, else_));
      PositionAtEnd(then_);
      assert State() == IfHead(old(Drop(State())), c, bt);
      PushCFEntry(CfIf, bt, end, Some(else_));
      PushBlockEntry(bt, end);
    }

    /** Pop the result a block is left with, add it to the phi of its target, and branch. */
    method JumpOp(l: BlockEntry) returns (ok: bool)
      requires insert < |blocks| && l.block < |blocks|
      modifies this`evalStack, this`blocks
      ensures var r := JumpTo(old(State()), l); ok == r.Some? && (ok ==> State() == r.value && insert < |blocks|)
    {
      ok := true;
      if l.sig.Some? {
        var v;
        ok, v := PopTyped(l.sig.value);
        if !ok { return; }
        AddOne(blocks, l.block, v, insert);
        AddPair(l.block, v, insert);
      }
      Build(Br(l.block));
    }

    method BranchTarget(n: nat) returns (ok: bool, l: BlockEntry)
      ensures ok == BranchDepth(State(), n).Some? && (ok ==> l == BranchDepth(State(), n).value)
    {
      ok := n < |blockEntries|;
      l := if ok then blockEntries[|blockEntries| - n - 1] else BlockEntry(None, 0);
    }

    /** The common start of else and end. */
    method CloseTop() returns (ok: bool)
      requires InRange(State()) && |cfEntries| > 0
      modifies this`evalStack, this`blocks
      ensures var r := CloseFrame(old(State())); ok == r.Some? && (ok ==> State() == r.value)
    {
      hide JumpTo;
      var e := cfEntries[|cfEntries| - 1];
      if e.reachable {
        ok := JumpOp(BlockEntry(e.sig, e.end));
        if !ok { return; }
      }
      return |evalStack| == e.outerStack;
    }

    method ElseOp() returns (ok: bool)
      requires InRange(State()) && |cfEntries| > 0
      modifies this
      ensures var r := StepElse(old(State())); ok == r.Some? && (ok ==> State() == r.value)
    {
      hide CloseFrame;
      var e := cfEntries[|cfEntries| - 1];
      ok := CloseTop();
      if !ok { return; }
      if e.els.None? || e.kind != CfIf { return false; }
      PositionAtEnd(e.els.value);
      cfEntries := cfEntries[|cfEntries| - 1 := e.(kind := CfElse, reachable := e.elseReachable, els := None)];
      return true;
    }

    /** The source pushes the result before it pops the frame. */
    method EndOp() returns (ok: bool)
      requires InRange(State()) && |cfEntries| > 0
      modifies this
      ensures var r := StepEnd(old(State())); ok == r.Some? && (ok ==> State() == r.value)
    {
      hide CloseFrame, Emit;
      var e := cfEntries[|cfEntries| - 1];
      ok := CloseTop();
      if !ok { return; }
      if e.outerBlocks > |blockEntries| { return false; }
      ghost var c := State();
      if e.els.Some? {
        PositionAtEnd(e.els.value);
        Build(Br(e.end));
      }
      PositionAtEnd(e.end);
      EndCommutes(c, e);
      PushPhi(e);
      blockEntries := blockEntries[..e.outerBlocks];
      cfEntries := cfEntries[..|cfEntries| - 1];
    }

    /** Push the end block's phi, or erase it and push a zero when nothing ever reached it. */
    method PushPhi(e: CFEntry)
      requires e.end < |blocks|
      modifies this
      ensures State() == PushResult(old(State()), e.sig, e.end)
    {
      if e.sig.Some? {
        if blocks[e.end].incoming != [] && blocks[e.end].phi.Some? {
          PushOpd(Reg(blocks[e.end].phi.value, e.sig.value));
        } else {
          blocks := blocks[e.end := blocks[e.end].(phi := None)];
          PushOpd(Const(Zero(e.sig.value)));
        }
      }
    }

    method BrIfOp(n: nat) returns (ok: bool)
      requires InRange(State())
      modifies this
      ensures var r := StepBrIf(old(State()), n); ok == r.Some? && (ok ==> State() == r.value)
    {
      hide Emit, NewBlock, AddIncoming, BrIfTest;
      var c, l, v;
      ok, c := PopTyped(I32);
      if !ok { return; }
      ghost var s1 := State();
      ok, l := BranchTarget(n);
      if !ok { return; }
      if l.sig.Some? {
        ok, v := Peek();
        if !ok || TypeOf(v) != l.sig.value { return false; }
        PairCommutes(s1, c, l.block, v);
        AddPair(l.block, v, insert);
      }
      BrIfTestIs(State(), c);
      var else_ := AppendBlock(None);
      var cond := BuildToBool(c);
      Build(CondBr(cond, l.block, else_));
      PositionAtEnd(else_);
    }

    method AddCase(t: Label)
      requires insert < |blocks| && |blocks[insert].insts| > 0 && Last(blocks[insert].insts).Switch?
      modifies this`blocks
      ensures var i := Last(old(blocks)[insert].insts);
              blocks == WithLast(old(blocks), insert, Switch(i.c, i.cases + [t], i.dflt)) && |blocks| == |old(blocks)|
    {
      var b := blocks[insert];
      var i := b.insts[|b.insts| - 1];
      blocks := blocks[insert := b.(insts := b.insts[|b.insts| - 1 := Switch(i.c, i.cases + [t], i.dflt)])];
    }

    method BrTableOp(ns: seq<nat>, d: nat) returns (ok: bool)
      requires InRange(State()) && |cfEntries| > 0
      modifies this
      ensures var r := StepBrTable(old(State()), ns, d); ok == r.Some? && (ok ==> State() == r.value)
    {
      hide Leave, InRange, WithLast;
      var c, l;
      ok, c := PopTyped(I32);
      if !ok { return; }
      ghost var s1 := State();
      ok, l := BranchTarget(d);
      if !ok { return; }
      InRangeDrop(old(State()));
      LabelInRange(s1, d);
      var v := None;
      if l.sig.Some? {
        var o;
        ok, o := PopTyped(l.sig.value);
        if !ok { return; }
        v := Some(o);
      }
      ghost var s2 := State();
      StartTable(s2, l.block, v, c);
      if v.Some? { AddPair(l.block, v.value, insert); }
      Build(Switch(c, [], l.block));
      ok := BrTableCases(s1, s2, ns, c, l, v);
      if !ok { return; }
      ok := SkipRest();
    }

    /** The cases, one target at a time. */
    method BrTableCases(ghost s1: TState, ghost s2: TState, ns: seq<nat>, c: Opd, l: BlockEntry, v: Option<Opd>) returns (ok: bool)
      requires s2.cur < |s2.blocks| && l.block < |s2.blocks| && State() == Leave(s2, [l.block] + [], v, Switch(c, [], l.block))
      requires s1.labels == s2.labels && s1.blocks == s2.blocks && InRange(s1)
      modifies this
      ensures ok == SameSig(s1, ns, l.sig)
      ensures ok ==> && (forall k :: 0 <= k < |ns| ==> ns[k] < |s1.labels|)
                     && var ts := Targets(s1, ns);
                        && (forall k :: 0 <= k < |ts| ==> ts[k] < |s2.blocks|)
                        && State() == Leave(s2, [l.block] + ts, v, Switch(c, ts, l.block))
    {
      hide Leave, InRange, WithLast;
      ghost var ts: seq<Label> := [];
      var i := 0;
      while i < |ns|
        invariant 0 <= i <= |ns| && |ts| == i
        invariant forall k :: 0 <= k < i ==>
                    ns[k] < |s1.labels| && s1.labels[|s1.labels| - 1 - ns[k]].sig == l.sig
                    && ts[k] == s1.labels[|s1.labels| - 1 - ns[k]].block
        invariant forall k :: 0 <= k < i ==> ts[k] < |s2.blocks|
        invariant State() == Leave(s2, [l.block] + ts, v, Switch(c, ts, l.block))
      {
        var found, target := BranchTarget(ns[i]);
        if !found || target.sig != l.sig {
          assert BranchDepth(s1, ns[i]) == BranchDepth(State(), ns[i]);
          return false;
        }
        LabelInRange(s1, ns[i]);
        CaseSnoc(s2, l.block, ts, target.block, v, c);
        AddCase(target.block);
        if v.Some? { AddPair(target.block, v.value, insert); }
        ts := ts + [target.block];
        i := i + 1;
      }
      assert ts == Targets(s1, ns);
      return true;
    }

    method LocalOp(lt: seq<WTy>, i: Simple) returns (ok: bool)
      requires InRange(State()) && |cfEntries| > 0 && (i.IGetLocal? || i.ISetLocal? || i.ITeeLocal?)
      modifies this
      ensures var r := StepPlain(lt, old(State()), i); ok == r.Some? && (ok ==> State() == r.value)
    {
      if i.x >= |lt| { return false; }
      var v;
      match i
      case IGetLocal(x) =>
        var r := Reg(nextReg, lt[x]);
        Build(Load(nextReg, x));
        nextReg := nextReg + 1;
        PushOpd(r);
        ok := true;
      case ISetLocal(x) =>
        ok, v := PopTyped(lt[x]);
        if !ok { return; }
        Build(Store(x, v));
      case ITeeLocal(x) =>
        ok, v := Peek();
        if !ok || TypeOf(v) != lt[x] { return false; }
        Build(Store(x, v));
    }

    method LeaveOp(lt: seq<WTy>, i: Simple) returns (ok: bool)
      requires InRange(State()) && |cfEntries| > 0 && (i.IBr? || i.IReturn? || i.IUnreachable?)
      modifies this
      ensures var r := StepPlain(lt, old(State()), i); ok == r.Some? && (ok ==> State() == r.value)
    {
      hide JumpTo, TrapIf, Emit;
      var l;
      match i
      case IUnreachable =>
        BuildTrapIf(Const(FromBool(true)));
        Build(Unreachable);
        ok := SkipRest();
      case IBr(n) =>
        ok, l := BranchTarget(n);
        if !ok { return; }
        LabelInRange(State(), n);
        ok := JumpOp(l);
        if !ok { return; }
        ok := SkipRest();
      case IReturn =>
        ok := JumpOp(BlockEntry(cfEntries[0].sig, cfEntries[0].end));
        if !ok { return; }
        ok := SkipRest();
    }

    method PlainOp(lt: seq<WTy>, i: Simple) returns (ok: bool)
      requires InRange(State()) && |cfEntries| > 0
      modifies this
      ensures var r := StepPlain(lt, old(State()), i); ok == r.Some? && (ok ==> State() == r.value)
    {
      hide StepNum, StepSelect, StepBrIf, StepBrTable, JumpTo, TrapIf, SkipUnreachable, BranchDepth;
      ok := true;
      if i.INum? {
        ok := Numeric(i.op);
      } else if i.ISelect? {
        ok := SelectOp();
      } else if i.IBrIf? {
        ok := BrIfOp(i.n);
      } else if i.IBrTable? {
        ok := BrTableOp(i.ns, i.d);
      } else if i.IDrop? {
        var o;
        ok, o := Pop();
      } else if i.IConst? {
        PushOpd(Const(i.v));
      } else if i.IGetLocal? || i.ISetLocal? || i.ITeeLocal? {
        ok := LocalOp(lt, i);
      } else if i.IBr? || i.IReturn? || i.IUnreachable? {
        ok := LeaveOp(lt, i);
      }
    }

    /** One opcode: in a dead frame only the nesting is counted, down to the frame's own else or end. */
    method Token(lt: seq<WTy>, t: Tok) returns (ok: bool)
      requires InRange(State()) && |cfEntries| > 0
      modifies this
      ensures var r := Step(lt, old(State()), t); ok == r.Some? && (ok ==> State() == r.value)
    {
      hide StepPlain, StepBlock, StepLoop, StepIf, StepElse, StepEnd;
      ok := true;
      if !cfEntries[|cfEntries| - 1].reachable {
        match t {
          case TPlain(_) => return;
          case TElse => if unreachableDepth > 0 { return; }
          case TEnd =>
            if unreachableDepth > 0 {
              unreachableDepth := unreachableDepth - 1;
              return;
            }
          case _ =>
            unreachableDepth := unreachableDepth + 1;
            return;
        }
      }
      match t
      case TPlain(i) => ok := PlainOp(lt, i);
      case TBlock(bt) => BlockOp(bt);
      case TLoop(bt) => LoopOp(bt);
      case TIf(bt) => ok := IfOp(bt);
      case TElse => ok := ElseOp();
      case TEnd => ok := EndOp();
    }

    /** The end block with its phi, the outermost frame, the entry block, and the stores of parameters and
        declared locals. */
    method Open(f: Func)
      requires State() == TState([], [], [], 0, [], 0, 0)
      modifies this
      ensures State() == Start(f)
    {
      hide StoreLocals, Emit;
      var end := AppendBlock(f.ret);
      PushCFEntry(CfFunction, f.ret, end, None);
      PushBlockEntry(f.ret, end);
      var entry := AppendBlock(None);
      PositionAtEnd(entry);
      var k := 0;
      NoStores(State(), f);
      while k < |f.params|
        invariant 0 <= k <= |f.params| && insert < |blocks| && FENTRY < |Opening(f.ret).blocks|
        invariant State() == StoreLocals(Opening(f.ret), f.params, f.extra, k)
      {
        OneStore(Opening(f.ret), f, k);
        Build(Store(k, Param(k, f.params[k])));
        k := k + 1;
      }
      while k < |f.params| + |f.extra|
        invariant |f.params| <= k <= |f.params| + |f.extra| && insert < |blocks| && FENTRY < |Opening(f.ret).blocks|
        invariant State() == StoreLocals(Opening(f.ret), f.params, f.extra, k)
      {
        OneStore(Opening(f.ret), f, k);
        Build(Store(k, Const(Zero(f.extra[k - |f.params|]))));
        k := k + 1;
      }
    }

    /** The body of a function: open it, take the tokens while a frame is open, check where that ended, and
        return the result. */
    method TranslateFunction(f: Func, ts: seq<Tok>) returns (ok: bool)
      requires State() == TState([], [], [], 0, [], 0, 0)
      modifies this
      ensures ok == Translate(f, ts).Some?
      ensures ok ==> State() == Translate(f, ts).value
    {
      hide Inv, Start, Step, NotAtEnd, Matches, Live, Kept;
      StartInv(f);
      Open(f);
      StartNotAtEnd(f);
      var lt, i := Locals(f), 0;
      while i < |ts| && |cfEntries| > 0
        invariant 0 <= i <= |ts| && Inv(State()) && NotAtEnd(State()) && Inv(Start(f))
        invariant TokenLoop(lt, Start(f), ts) == TokenLoop(lt, State(), ts[i..])
      {
        assert ts[i..] == [ts[i]] + ts[i + 1..];
        LoopCons(lt, State(), ts[i], ts[i + 1..]);
        TickIsStep(lt, State(), ts[i]);
        ghost var s := State();
        ok := Token(lt, ts[i]);
        if !ok { return; }
        StaysNotAtEnd(lt, s, ts[i]);
        i := i + 1;
      }
      InvFacts(State());
      if i < |ts| {
        assert ts[i..] == [ts[i]] + ts[i + 1..];
        LoopCons(lt, State(), ts[i], ts[i + 1..]);
        NoFrame(lt, State(), ts[i]);
        return false;
      }
      assert ts[i..] == [];
      EndNotReached(State());
      if insert != FEND { return false; }
      if f.ret.Some? {
        var v;
        ok, v := PopTyped(f.ret.value);
        if !ok { return; }
        Build(Ret(Some(v)));
      } else {
        Build(Ret(None));
      }
      return true;
    }
  }

  lemma NoStores(s: TState, f: Func)
    requires s.cur < |s.blocks|
    ensures StoreLocals(s, f.params, f.extra, 0) == s
  {
  }

  lemma OneStore(s: TState, f: Func, k: nat)
    requires s.cur < |s.blocks| && k < |f.params| + |f.extra|
    ensures StoreLocals(s, f.params, f.extra, k + 1) ==
            Emit(StoreLocals(s, f.params, f.extra, k),
                 Store(k, if k < |f.params| then Param(k, f.params[k]) else Const(Zero(f.extra[k - |f.params|]))))
  {
  }

  /** While a frame is open the builder is not in the function's end block. */
  ghost predicate NotAtEnd(s: TState) {
    |s.cf| > 0 ==> s.cur != FEND && s.cf[0].end == FEND
  }

  lemma EndNotReached(s: TState)
    requires NotAtEnd(s)
    ensures s.cur == FEND ==> s.cf == []
  {
  }

  lemma NoFrame(lt: seq<WTy>, s: TState, t: Tok)
    requires Inv(s) && |s.cf| == 0
    ensures Tick(lt, s, t).None?
  {
    TickIsStep(lt, s, t);
  }

  lemma StartNotAtEnd(f: Func)
    requires SameStacks(Opening(f.ret), Start(f)) && Start(f).cur == FENTRY
    ensures NotAtEnd(Start(f))
  {
  }

  lemma LiveNotAtEnd(s: TState)
    requires Inv(s) && Live(s) && |s.cf| > 0 && s.cf[0].end == FEND
    ensures s.cur != FEND
  {
    assert Pending(s.cf, FEND);
  }

  lemma StaysNotAtEnd(lt: seq<WTy>, s: TState, t: Tok)
    requires Inv(s) && NotAtEnd(s) && |s.cf| > 0 && Tick(lt, s, t).Some?
    ensures NotAtEnd(Tick(lt, s, t).value)
  {
    hide Inv, Step;
    TickIsStep(lt, s, t);
    var s' := Tick(lt, s, t).value;
    BottomStays(lt, s, t);
    if |s'.cf| > 0 {
      if Live(s') { LiveNotAtEnd(s'); } else { DeadCur(lt, s, t); }
    }
  }

  /** The function's own frame keeps its end. */
  lemma BottomStays(lt: seq<WTy>, s: TState, t: Tok)
    requires Inv(s) && |s.cf| > 0 && Tick(lt, s, t).Some?
    ensures |Tick(lt, s, t).value.cf| > 0 ==> Tick(lt, s, t).value.cf[0].end == s.cf[0].end
  {
    hide Inv, StepPlain, StepBlock, StepLoop, StepIf, StepElse, StepEnd, Tick;
    InvFacts(s);
    TickIsStep(lt, s, t);
    var s' := Tick(lt, s, t).value;
    if Live(s) {
      match t
      case TPlain(i) => PlainTick(lt, s, i);
      case TBlock(bt) => OpenTick(lt, s, t, bt); assert s'.cf[..|s.cf|][0] == s.cf[0];
      case TLoop(bt) => OpenTick(lt, s, t, bt); assert s'.cf[..|s.cf|][0] == s.cf[0];
      case TIf(bt) => OpenTick(lt, s, t, bt); assert s'.cf[..|s.cf|][0] == s.cf[0];
      case TElse => ElseFrame(s); assert |s.cf| > 1 ==> s'.cf[..|s.cf| - 1][0] == s.cf[0];
      case TEnd => EndFrame(s);
    } else if s.depth == 0 && (t == TElse || t == TEnd) {
      hide Step;
      DeadClose(lt, s, t);
    }
  }

  lemma DeadClose(lt: seq<WTy>, s: TState, t: Tok)
    requires Inv(s) && InRange(s) && |s.cf| > 0 && !Live(s) && s.depth == 0 && (t == TElse || t == TEnd) && Step(lt, s, t).Some?
    ensures var s' := Step(lt, s, t).value; |s'.cf| > 0 ==> s'.cf[0].end == s.cf[0].end
  {
    InvFacts(s);
    hide Inv, StepElse, StepEnd;
    if t == TElse {
      ElseFrame(s);
      assert |s.cf| > 1 ==> StepElse(s).value.cf[..|s.cf| - 1][0] == s.cf[0];
    } else {
      EndFrame(s);
    }
  }

  /** A token that ends in dead code leaves the builder where it was, or in a block it has just made. */
  lemma DeadCur(lt: seq<WTy>, s: TState, t: Tok)
    requires Inv(s) && |s.cf| > 0 && Tick(lt, s, t).Some? && !Live(Tick(lt, s, t).value)
    ensures Tick(lt, s, t).value.cur == s.cur || Tick(lt, s, t).value.cur > |s.blocks|
  {
    hide Inv, StepPlain, StepBlock, StepLoop, StepIf, StepElse, StepEnd, Tick, Ready;
    InvFacts(s);
    TickIsStep(lt, s, t);
    if Live(s) {
      match t
      case TPlain(i) => DeadPlain(lt, s, i);
      case TBlock(bt) => OpenTick(lt, s, t, bt);
      case TLoop(bt) => OpenTick(lt, s, t, bt);
      case TIf(bt) => OpenTick(lt, s, t, bt);
      case TElse => ElseFrame(s);
      case TEnd => EndLives(s);
    } else if s.depth == 0 && (t == TElse || t == TEnd) {
      if t == TElse { ElseFrame(s); } else { EndLives(s); }
    }
  }

  lemma EndLives(s: TState)
    requires Inv(s) && InRange(s) && Floor(s) && StepEnd(s).Some?
    ensures Live(StepEnd(s).value)
  {
    assert |s.cf| > 1 ==> s.cf[|s.cf| - 2].reachable;
    hide Inv, StepEnd;
    EndFrame(s);
  }

  lemma DeadPlain(lt: seq<WTy>, s: TState, i: Simple)
    requires InRange(s) && |s.cf| > 0 && Live(s) && StepPlain(lt, s, i).Some? && !Live(StepPlain(lt, s, i).value)
    ensures StepPlain(lt, s, i).value.cur == s.cur || StepPlain(lt, s, i).value.cur > |s.blocks|
  {
    hide StepNum, Leave, BrIfTest, Targets, SameSig, BranchDepth, StepBrTable, InRange, JumpTo;
    BranchRange(s, 0);
    if i.INum? {
      NumLives(s, i.op);
    } else if i.IBrTable? {
      BrTableShape(s, i.ns, i.d);
      LeaveCur();
    } else if i.IReturn? {
      JumpCur(s, BlockEntry(s.cf[0].sig, s.cf[0].end));
    } else if i.IBr? {
      BranchRange(s, i.n);
      JumpCur(s, BranchDepth(s, i.n).value);
    }
  }

  lemma JumpCur(s: TState, l: BlockEntry)
    requires s.cur < |s.blocks| && l.block < |s.blocks| && JumpTo(s, l).Some?
    ensures JumpTo(s, l).value.cur == s.cur
  {
  }

  lemma NumLives(s: TState, op: NumOp)
    requires s.cur < |s.blocks| && StepNum(s, op).Some?
    ensures StepNum(s, op).value.cf == s.cf
  {
    hide EmitBinary, PushBool;
  }

  lemma LeaveCur()
    ensures forall d: TState, ts: seq<Label>, v: Option<Opd>, term: Inst ::
              d.cur < |d.blocks| && (forall k :: 0 <= k < |ts| ==> ts[k] < |d.blocks|) ==> Leave(d, ts, v, term).cur == d.cur
  {
  }

  lemma InRangeDrop(s: TState)
    requires InRange(s) && CanPop(s)
    ensures InRange(Drop(s)) && s.cur < |s.blocks|
  {
  }

  lemma LabelInRange(s: TState, n: nat)
    requires InRange(s) && n < |s.labels|
    ensures s.labels[|s.labels| - 1 - n].block < |s.blocks|
  {
  }

  lemma BrIfTestIs(s: TState, c: Opd)
    requires s.cur < |s.blocks|
    ensures BrIfTest(s, c) == EmitBin(NewBlock(s, None), LCmp(Ne), c, Const(Zero(I32)))
  {
  }

  lemma StartTable(s: TState, d: Label, v: Option<Opd>, c: Opd)
    requires s.cur < |s.blocks| && d < |s.blocks|
    ensures var s1 := if v.Some? then AddIncoming(s, d, v.value, s.cur) else s;
            s1.cur < |s1.blocks| && Leave(s, [d] + [], v, Switch(c, [], d)) == Emit(s1, Switch(c, [], d))
  {
    assert [d] + [] == [d];
    if v.Some? { AddOne(s.blocks, d, v.value, s.cur); }
  }
}

/** Running the emitted graph: what one emitted piece does when the final graph contains it. */
module Simulation {
  import opened Values
  import opened Cfg
  import opened Wasm
  import opened TranslatorSpec
  import opened Invariant
  import opened Steps
  import opened Division

  /** The machine stands where the next instruction will be emitted. */
  predicate StandsAt(s: TState, cs: CState) {
    cs.Running? && s.cur < |s.blocks| && cs.b == s.cur && cs.i == |s.blocks[s.cur].insts|
  }

  predicate Holds(p: Prog, o: Opd, v: Val, env: Env) {
    Eval(o, env, p.args) == Some(v) && v.ty == TypeOf(o)
  }

  ghost predicate AllHold(p: Prog, os: seq<Opd>, vs: seq<Val>, env: Env) {
    |os| == |vs| && forall k :: 0 <= k < |os| ==> Holds(p, os[k], vs[k], env)
  }

  ghost predicate AllBelow(os: seq<Opd>, n: nat) {
    forall k :: 0 <= k < |os| ==> RegBelow(os[k], n)
  }

  lemma InstThere(p: Prog, s: TState, i: Inst)
    requires s.cur < |s.blocks| && Grows(Emit(s, i).blocks, p.blocks)
    ensures s.cur < |p.blocks| && |s.blocks[s.cur].insts| < |p.blocks[s.cur].insts|
    ensures p.blocks[s.cur].insts[|s.blocks[s.cur].insts|] == i
  {
    var b := Emit(s, i).blocks[s.cur];
    assert BlkGrows(b, p.blocks[s.cur]);
    assert b.insts == p.blocks[s.cur].insts[..|b.insts|];
  }

  /** Registers below n keep their values. */
  ghost predicate SameBelow(env: Env, env': Env, n: nat) {
    forall r :: r in env && r < n ==> r in env' && env'[r] == env[r]
  }

  lemma HoldLater(p: Prog, os: seq<Opd>, vs: seq<Val>, env: Env, env': Env, n: nat)
    requires AllHold(p, os, vs, env) && AllBelow(os, n) && SameBelow(env, env', n)
    ensures AllHold(p, os, vs, env')
  {
    forall k | 0 <= k < |os|
      ensures Holds(p, os[k], vs[k], env')
    {
      assert Holds(p, os[k], vs[k], env) && RegBelow(os[k], n);
    }
  }

  /** One binary operator: its value arrives in the next register. */
  lemma BinStep(p: Prog, s: TState, cs: CState, op: LOp, a: Opd, b: Opd, va: Val, vb: Val, v: Val)
    requires StandsAt(s, cs) && Grows(EmitBin(s, op, a, b).blocks, p.blocks)
    requires Holds(p, a, va, cs.env) && Holds(p, b, vb, cs.env) && LBin(op, va, vb) == Some(v)
    ensures StandsAt(EmitBin(s, op, a, b), Advance(p, cs)) && Advance(p, cs).mem == cs.mem
    ensures Advance(p, cs).env == cs.env[s.next := v] && v.ty == LResultTy(op, TypeOf(a))
  {
    InstThere(p, s, Inst.Bin(s.next, op, a, b));
  }

  /** Enter a block without a phi. */
  lemma EnterPlain(p: Prog, g: Graph, from: Label, t: Label, env: Env, mem: Env)
    requires Grows(g, p.blocks) && t < |g| && g[t].phi == None
    ensures Enter(p, from, t, env, mem) == Running(t, 0, env, mem)
  {
    assert BlkGrows(g[t], p.blocks[t]);
  }

  /** A conditional trap: two steps to the throw, or one step past it. */
  lemma TrapIfStep(p: Prog, s: TState, cs: CState, c: Opd, vc: Val)
    requires StandsAt(s, cs) && Grows(TrapIf(s, c).blocks, p.blocks)
    requires Holds(p, c, vc, cs.env) && vc.ty == I1
    ensures vc.bits == 1 ==> RunN(p, cs, 2) == Trapped(cs.mem)
    ensures vc.bits != 1 ==>
              var cs' := Advance(p, cs);
              StandsAt(TrapIf(s, c), cs') && cs'.env == cs.env && cs'.mem == cs.mem
  {
    var t := |s.blocks|;
    var g := TrapIf(s, c).blocks;
    var n := |s.blocks[s.cur].insts|;
    assert g[s.cur].insts == s.blocks[s.cur].insts + [CondBr(c, t, t + 1)];
    assert g[t] == Blk(None, None, [], [CallThrow, Unreachable]) && g[t + 1] == Blk(None, None, [], []);
    assert BlkGrows(g[s.cur], p.blocks[s.cur]) && BlkGrows(g[t], p.blocks[t]);
    assert p.blocks[s.cur].insts[n] == g[s.cur].insts[n];
    assert p.blocks[t].insts[0] == g[t].insts[0];
    EnterPlain(p, g, s.cur, t, cs.env, cs.mem);
    EnterPlain(p, g, s.cur, t + 1, cs.env, cs.mem);
    assert RunN(p, cs, 2) == Advance(p, Advance(p, cs));
  }

  /** Emission into an open block can be taken back without losing what it grows into. */
  lemma EmitBack(s: TState, i: Inst, g: Graph)
    requires s.cur < |s.blocks| && !Closed(s.blocks[s.cur]) && Grows(Emit(s, i).blocks, g)
    ensures Grows(s.blocks, g)
    ensures !IsTerm(i) ==> !Closed(Emit(s, i).blocks[s.cur])
  {
    forall b | 0 <= b < |s.blocks|
      ensures BlkGrows(s.blocks[b], g[b])
    {
      assert BlkGrows(Emit(s, i).blocks[b], g[b]);
    }
  }

  lemma BinBack(s: TState, op: LOp, a: Opd, b: Opd, g: Graph)
    requires s.cur < |s.blocks| && !Closed(s.blocks[s.cur]) && Grows(EmitBin(s, op, a, b).blocks, g)
    ensures Grows(s.blocks, g) && !Closed(EmitBin(s, op, a, b).blocks[s.cur])
  {
    EmitBack(s, Inst.Bin(s.next, op, a, b), g);
  }

  lemma TrapIfBack(s: TState, c: Opd, g: Graph)
    requires s.cur < |s.blocks| && !Closed(s.blocks[s.cur]) && Grows(TrapIf(s, c).blocks, g)
    ensures Grows(s.blocks, g)
    ensures !Closed(TrapIf(s, c).blocks[TrapIf(s, c).cur])
  {
    var g1 := TrapIf(s, c).blocks;
    forall b | 0 <= b < |s.blocks|
      ensures BlkGrows(s.blocks[b], g[b])
    {
      assert BlkGrows(g1[b], g[b]);
      assert b != s.cur ==> g1[b] == s.blocks[b];
    }
  }

  // ----- division -----

  /** Two operands of the same integer type, older than the next register. */
  ghost predicate Operands(p: Prog, s: TState, cs: CState, t: IntTy, a: Opd, b: Opd, va: Val, vb: Val) {
    && StandsAt(s, cs) && !Closed(s.blocks[s.cur])
    && Holds(p, a, va, cs.env) && Holds(p, b, vb, cs.env) && va.ty == t && vb.ty == t
    && RegBelow(a, s.next) && RegBelow(b, s.next)
  }

  /** The machine has gone on to s' with the operands and everything older still there. */
  ghost predicate Moved(p: Prog, s: TState, cs: CState, s': TState, cs': CState) {
    && cs.Running? && StandsAt(s', cs') && !Closed(s'.blocks[s'.cur]) && cs'.mem == cs.mem
    && SameBelow(cs.env, cs'.env, s.next) && s.next <= s'.next
  }

  lemma MovedTrans(p: Prog, s: TState, cs: CState, s': TState, cs': CState, s'': TState, cs'': CState)
    requires Moved(p, s, cs, s', cs') && Moved(p, s', cs', s'', cs'')
    ensures Moved(p, s, cs, s'', cs'')
  {
  }

  lemma HeldType(p: Prog, o: Opd, v: Val, env: Env)
    requires Holds(p, o, v, env)
    ensures TypeOf(o) == v.ty
  {
  }

  lemma HoldsLater(p: Prog, o: Opd, v: Val, env: Env, env': Env, n: nat)
    requires Holds(p, o, v, env) && RegBelow(o, n) && SameBelow(env, env', n)
    ensures Holds(p, o, v, env')
  {
  }

  lemma TrapIfMoved(p: Prog, s: TState, cs: CState, c: Opd, bad: bool)
    requires StandsAt(s, cs) && !Closed(s.blocks[s.cur]) && Grows(TrapIf(s, c).blocks, p.blocks)
    requires Holds(p, c, FromBool(bad), cs.env)
    ensures bad ==> RunN(p, cs, 2) == Trapped(cs.mem)
    ensures !bad ==> Moved(p, s, cs, TrapIf(s, c), Advance(p, cs))
  {
    TrapIfStep(p, s, cs, c, FromBool(bad));
    TrapIfBack(s, c, p.blocks);
    hide Advance, Grows;
  }

  /** A test of n steps, then the trap on it. */
  lemma TestThenTrap(p: Prog, s: TState, cs: CState, s1: TState, n: nat, c: Opd, bad: bool)
    requires Moved(p, s, cs, s1, RunN(p, cs, n)) && Grows(TrapIf(s1, c).blocks, p.blocks)
    requires Holds(p, c, FromBool(bad), RunN(p, cs, n).env)
    ensures bad ==> RunN(p, cs, n + 2) == Trapped(cs.mem)
    ensures !bad ==> Moved(p, s, cs, TrapIf(s1, c), RunN(p, cs, n + 1))
  {
    hide TrapIf, Grows, Closed, Advance, RunN, SameBelow, Holds, FromBool;
    TrapIfMoved(p, s1, RunN(p, cs, n), c, bad);
    RunSplit(p, cs, n, 2);
    RunNext(p, cs, n);
    if !bad {
      MovedTrans(p, s, cs, s1, RunN(p, cs, n), TrapIf(s1, c), RunN(p, cs, n + 1));
    }
  }

  lemma ZeroDivSim(p: Prog, s: TState, cs: CState, t: IntTy, a: Opd, b: Opd, va: Val, vb: Val)
    requires Operands(p, s, cs, t, a, b, va, vb) && Grows(TrapZeroDiv(s, b).blocks, p.blocks)
    ensures vb.bits == 0 ==> RunN(p, cs, 3) == Trapped(cs.mem)
    ensures vb.bits != 0 ==> Moved(p, s, cs, TrapZeroDiv(s, b), RunN(p, cs, 2))
  {
    hide Grows, TrapIf, LBin, Advance, RunN, EmitBin, Closed;
    var z := Zero(TypeOf(b));
    var s1, c := EmitBin(s, LCmp(Eq), b, Const(z)), FromBool(vb.bits == 0);
    CmpVal(vb, z);
    TrapIfBack(s1, Reg(s.next, I1), p.blocks);
    BinStep(p, s, cs, LCmp(Eq), b, Const(z), vb, z, c);
    RunZero(p, cs);
    RunNext(p, cs, 0);
    TestThenTrap(p, s, cs, s1, 1, Reg(s.next, I1), vb.bits == 0);
  }

  lemma CmpVal(a: Val, b: Val)
    requires a.ty == b.ty
    ensures LBin(LCmp(Eq), a, b) == Some(FromBool(a == b)) && LBin(LCmp(Ne), a, b) == Some(FromBool(a != b))
  {
  }

  lemma BoolOps(x: bool, y: bool)
    ensures LBin(LAnd, FromBool(x), FromBool(y)) == Some(FromBool(x && y))
    ensures LBin(LOr, FromBool(x), FromBool(y)) == Some(FromBool(x || y))
  {
  }

  lemma Constants(p: Prog, t: Ty, env: Env)
    ensures MinSigned(t).ty == t && MinusOne(t).ty == t && FromBool(true).ty == I1 && FromBool(false).ty == I1
    ensures Holds(p, Const(MinSigned(t)), MinSigned(t), env) && Holds(p, Const(MinusOne(t)), MinusOne(t), env)
    ensures Holds(p, Const(Zero(t)), Zero(t), env)
  {
  }

  lemma PairTestSim(p: Prog, s: TState, cs: CState, t: IntTy, pred: Pred, join: LOp, a: Opd, b: Opd, va: Val, vb: Val,
                    c1: Val, c2: Val, c: Val)
    requires Operands(p, s, cs, t, a, b, va, vb) && Grows(PairTest(s, t, pred, join, a, b).blocks, p.blocks)
    requires LBin(LCmp(pred), va, MinSigned(t)) == Some(c1) && LBin(LCmp(pred), vb, MinusOne(t)) == Some(c2)
    requires LBin(join, c1, c2) == Some(c) && c.ty == I1
    ensures Moved(p, s, cs, PairTest(s, t, pred, join, a, b), RunN(p, cs, 3)) && Grows(s.blocks, p.blocks)
    ensures Holds(p, Reg(s.next + 2, I1), c, RunN(p, cs, 3).env)
  {
    hide EmitBin, Grows, Closed, MinSigned, MinusOne, LBin, Advance, RunN;
    Constants(p, t, cs.env);
    var s1 := EmitBin(s, LCmp(pred), a, Const(MinSigned(t)));
    var s2 := EmitBin(s1, LCmp(pred), b, Const(MinusOne(t)));
    BinBack(s2, join, Reg(s.next, I1), Reg(s1.next, I1), p.blocks);
    BinBack(s1, LCmp(pred), b, Const(MinusOne(t)), p.blocks);
    BinBack(s, LCmp(pred), a, Const(MinSigned(t)), p.blocks);
    BinStep(p, s, cs, LCmp(pred), a, Const(MinSigned(t)), va, MinSigned(t), c1);
    RunZero(p, cs);
    RunNext(p, cs, 0);
    BinStep(p, s1, Advance(p, cs), LCmp(pred), b, Const(MinusOne(t)), vb, MinusOne(t), c2);
    RunNext(p, cs, 1);
    BinStep(p, s2, RunN(p, cs, 2), join, Reg(s.next, I1), Reg(s1.next, I1), c1, c2, c);
    RunNext(p, cs, 2);
  }

  /** Compare with zero and join with an earlier answer. */
  lemma ZeroOrSim(p: Prog, s: TState, cs: CState, b: Opd, vb: Val, r: Opd, c: bool)
    requires StandsAt(s, cs) && !Closed(s.blocks[s.cur]) && Holds(p, b, vb, cs.env)
    requires Holds(p, r, FromBool(c), cs.env) && RegBelow(r, s.next) && RegBelow(b, s.next)
    requires var s1 := EmitBin(s, LCmp(Eq), b, Const(Zero(TypeOf(b))));
             Grows(EmitBin(s1, LOr, Reg(s.next, I1), r).blocks, p.blocks)
    ensures var s1 := EmitBin(s, LCmp(Eq), b, Const(Zero(TypeOf(b))));
            Moved(p, s, cs, EmitBin(s1, LOr, Reg(s.next, I1), r), RunN(p, cs, 2))
    ensures Holds(p, Reg(s.next + 1, I1), FromBool(vb.bits == 0 || c), RunN(p, cs, 2).env)
    ensures Grows(s.blocks, p.blocks)
  {
    hide EmitBin, Grows, Closed, LBin, Advance, RunN, FromBool;
    var z := Zero(TypeOf(b));
    CmpVal(vb, z);
    BoolOps(vb.bits == 0, c);
    var s1 := EmitBin(s, LCmp(Eq), b, Const(z));
    BinBack(s1, LOr, Reg(s.next, I1), r, p.blocks);
    BinBack(s, LCmp(Eq), b, Const(z), p.blocks);
    BinStep(p, s, cs, LCmp(Eq), b, Const(z), vb, z, FromBool(vb.bits == 0));
    RunZero(p, cs);
    RunNext(p, cs, 0);
    BinStep(p, s1, Advance(p, cs), LOr, Reg(s.next, I1), r, FromBool(vb.bits == 0), FromBool(c),
            FromBool(vb.bits == 0 || c));
    RunNext(p, cs, 1);
  }

  lemma SZeroTestSim(p: Prog, s: TState, cs: CState, t: IntTy, a: Opd, b: Opd, va: Val, vb: Val)
    requires Operands(p, s, cs, t, a, b, va, vb) && Grows(SZeroTest(s, a, b).blocks, p.blocks)
    ensures Moved(p, s, cs, SZeroTest(s, a, b), RunN(p, cs, 5)) && Grows(s.blocks, p.blocks)
    ensures var c := vb.bits == 0 || (va == MinSigned(t) && vb == MinusOne(t));
            Holds(p, Reg(s.next + 4, I1), FromBool(c), RunN(p, cs, 5).env)
  {
    hide EmitBin, PairTest, Grows, Closed, LBin, Advance, RunN, SameBelow, FromBool, MinSigned, MinusOne, Holds;
    HeldType(p, a, va, cs.env);
    HeldType(p, b, vb, cs.env);
    Constants(p, t, cs.env);
    CmpVal(va, MinSigned(t));
    CmpVal(vb, MinusOne(t));
    BoolOps(va == MinSigned(t), vb == MinusOne(t));
    var c := va == MinSigned(t) && vb == MinusOne(t);
    var s1 := PairTest(s, TypeOf(a), Eq, LAnd, a, b);
    var s2 := EmitBin(s1, LCmp(Eq), b, Const(Zero(t)));
    BinBack(s2, LOr, Reg(s1.next, I1), Reg(s1.next - 1, I1), p.blocks);
    BinBack(s1, LCmp(Eq), b, Const(Zero(t)), p.blocks);
    PairTestSim(p, s, cs, t, Eq, LAnd, a, b, va, vb, FromBool(va == MinSigned(t)), FromBool(vb == MinusOne(t)), FromBool(c));
    var cs1 := RunN(p, cs, 3);
    HoldsLater(p, b, vb, cs.env, cs1.env, s.next);
    ZeroOrSim(p, s1, cs1, b, vb, Reg(s1.next - 1, I1), c);
    RunSplit(p, cs, 3, 2);
    MovedTrans(p, s, cs, s1, cs1, SZeroTest(s, a, b), RunN(p, cs, 5));
  }

  lemma SZeroDivSim(p: Prog, s: TState, cs: CState, t: IntTy, a: Opd, b: Opd, va: Val, vb: Val)
    requires Operands(p, s, cs, t, a, b, va, vb) && Grows(TrapSZeroDiv(s, a, b).blocks, p.blocks)
    ensures var bad := vb.bits == 0 || (va == MinSigned(t) && vb == MinusOne(t));
            && (bad ==> RunN(p, cs, 7) == Trapped(cs.mem))
            && (!bad ==> Moved(p, s, cs, TrapSZeroDiv(s, a, b), RunN(p, cs, 6)))
  {
    hide TrapIf, SZeroTest, Grows, Closed, Advance, RunN, MinSigned, MinusOne, SameBelow, Holds, FromBool;
    var bad := vb.bits == 0 || (va == MinSigned(t) && vb == MinusOne(t));
    TrapIfBack(SZeroTest(s, a, b), Reg(s.next + 4, I1), p.blocks);
    SZeroTestSim(p, s, cs, t, a, b, va, vb);
    TestThenTrap(p, s, cs, SZeroTest(s, a, b), 5, Reg(s.next + 4, I1), bad);
  }

  /** A defined operator after the guard: its value is the pushed operand's. */
  lemma BinPushSim(p: Prog, s: TState, cs: CState, op: LOp, t: IntTy, a: Opd, b: Opd, va: Val, vb: Val, v: Val)
    requires Operands(p, s, cs, t, a, b, va, vb) && Grows(BinPush(s, op, a, b).blocks, p.blocks)
    requires LBin(op, va, vb) == Some(v) && v.ty == t
    ensures Moved(p, s, cs, BinPush(s, op, a, b), Advance(p, cs))
    ensures Holds(p, Reg(s.next, TypeOf(a)), v, Advance(p, cs).env)
  {
    BinStep(p, s, cs, op, a, b, va, vb, v);
    hide Advance, LBin, Grows;
  }

  lemma OperandsLater(p: Prog, s: TState, cs: CState, s': TState, cs': CState, t: IntTy, a: Opd, b: Opd, va: Val, vb: Val)
    requires Operands(p, s, cs, t, a, b, va, vb) && Moved(p, s, cs, s', cs')
    ensures Operands(p, s', cs', t, a, b, va, vb)
  {
  }

  /** The guarded operators against section 4.3.2: they trap exactly where the result is undefined. */
  lemma DivSem(op: BinOp, a: Val, b: Val)
    requires a.ty == b.ty && (a.ty == I32 || a.ty == I64)
    ensures var t := a.ty;
            var bad := b.bits == 0 || (a == MinSigned(t) && b == MinusOne(t));
            match op
            case Add => LBin(LAdd, a, b).Some? && BinSem(op, a, b) == Value(LBin(LAdd, a, b).value)
            case Sub => LBin(LSub, a, b).Some? && BinSem(op, a, b) == Value(LBin(LSub, a, b).value)
            case Mul => LBin(LMul, a, b).Some? && BinSem(op, a, b) == Value(LBin(LMul, a, b).value)
            case DivU =>
              if b.bits == 0 then BinSem(op, a, b) == NumTrap
              else LBin(LUDiv, a, b).Some? && BinSem(op, a, b) == Value(LBin(LUDiv, a, b).value)
            case RemU =>
              if b.bits == 0 then BinSem(op, a, b) == NumTrap
              else LBin(LURem, a, b).Some? && BinSem(op, a, b) == Value(LBin(LURem, a, b).value)
            case DivS =>
              if bad then BinSem(op, a, b) == NumTrap
              else LBin(LSDiv, a, b).Some? && BinSem(op, a, b) == Value(LBin(LSDiv, a, b).value)
            case RemS =>
              if b.bits == 0 then BinSem(op, a, b) == NumTrap
              else if bad then BinSem(op, a, b) == Value(Zero(t))
              else LBin(LSRem, a, b).Some? && BinSem(op, a, b) == Value(LBin(LSRem, a, b).value)
    ensures BinSem(op, a, b).Value? ==> BinSem(op, a, b).v.ty == a.ty
  {
    if b.bits != 0 {
      QuotientOverflow(a, b);
      RemOfOverflow(a.ty);
    }
    hide TruncDiv, Signed, MinSigned, MinusOne;
  }

  /** The edge a conditional branch takes. */
  lemma CondBrStep(p: Prog, s: TState, cs: CState, c: Opd, t: Label, f: Label, ok: bool)
    requires StandsAt(s, cs) && Grows(Emit(s, CondBr(c, t, f)).blocks, p.blocks)
    requires Holds(p, c, FromBool(ok), cs.env)
    ensures Advance(p, cs) == Enter(p, s.cur, if ok then t else f, cs.env, cs.mem)
  {
    InstThere(p, s, CondBr(c, t, f));
  }

  function ForkTest(s: TState, t: IntTy, a: Opd, b: Opd): TState
    requires s.cur < |s.blocks|
  {
    PairTest(NewBlock(NewBlock(s, None), Some(t)), t, Ne, LOr, a, b)
  }

  lemma ForkTaken(p: Prog, s: TState, t: IntTy, a: Opd, b: Opd, cs: CState, ok: bool)
    requires s.cur < |s.blocks| && Grows(SRemFork(s, t, a, b).blocks, p.blocks)
    requires StandsAt(ForkTest(s, t, a, b), cs) && Holds(p, Reg(s.next + 3, I1), FromBool(ok), cs.env)
    ensures ok ==> Advance(p, cs) == Running(|s.blocks|, 0, cs.env, cs.mem)
    ensures !ok ==> Advance(p, cs) == Enter(p, s.cur, |s.blocks| + 1, cs.env, cs.mem)
  {
    hide SRemFork, PairTest, Advance, Enter, Grows, Holds;
    ForkShape(s, t, a, b);
    ForkBack(p, s, t, a, b);
    CondBrStep(p, ForkTest(s, t, a, b), cs, Reg(s.next + 3, I1), |s.blocks|, |s.blocks| + 1, ok);
    EnterPlain(p, SRemFork(s, t, a, b).blocks, s.cur, |s.blocks|, cs.env, cs.mem);
  }

  /** The fork of the signed remainder: into the division block, or straight to the join. */
  lemma SRemForkSim(p: Prog, s: TState, cs: CState, t: IntTy, a: Opd, b: Opd, va: Val, vb: Val)
    requires Operands(p, s, cs, t, a, b, va, vb) && Grows(SRemFork(s, t, a, b).blocks, p.blocks)
    ensures var ok := va != MinSigned(t) || vb != MinusOne(t);
            var cs3 := RunN(p, cs, 3);
            && cs3.Running? && SameBelow(cs.env, cs3.env, s.next) && cs3.mem == cs.mem
            && (ok ==> RunN(p, cs, 4) == Running(|s.blocks|, 0, cs3.env, cs.mem))
            && (!ok ==> RunN(p, cs, 4) == Enter(p, s.cur, |s.blocks| + 1, cs3.env, cs.mem))
  {
    var ok := va != MinSigned(t) || vb != MinusOne(t);
    var c1, c2 := va != MinSigned(t), vb != MinusOne(t);
    hide SRemFork, Closed, PairTest, LBin, MinSigned, MinusOne, Advance, RunN, Enter, FromBool, Grows, Holds;
    var s1 := NewBlock(NewBlock(s, None), Some(t));
    CmpVal(va, MinSigned(t));
    CmpVal(vb, MinusOne(t));
    BoolOps(c1, c2);
    ForkBack(p, s, t, a, b);
    assert Operands(p, s1, cs, t, a, b, va, vb);
    PairTestSim(p, s1, cs, t, Ne, LOr, a, b, va, vb, FromBool(c1), FromBool(c2), FromBool(ok));
    ForkTaken(p, s, t, a, b, RunN(p, cs, 3), ok);
    RunNext(p, cs, 3);
  }

  lemma ForkBack(p: Prog, s: TState, t: IntTy, a: Opd, b: Opd)
    requires s.cur < |s.blocks| && Grows(SRemFork(s, t, a, b).blocks, p.blocks)
    ensures var s2 := ForkTest(s, t, a, b);
            && Grows(Emit(s2, CondBr(Reg(s.next + 3, I1), |s.blocks|, |s.blocks| + 1)).blocks, p.blocks)
            && Grows(s2.blocks, p.blocks)
  {
    hide PairTest;
    EmitBack(ForkTest(s, t, a, b), CondBr(Reg(s.next + 3, I1), |s.blocks|, |s.blocks| + 1), p.blocks);
  }

  lemma ForkShape(s: TState, t: IntTy, a: Opd, b: Opd)
    requires s.cur < |s.blocks|
    ensures var f := SRemFork(s, t, a, b);
            && f.cur == |s.blocks| && |f.blocks| == |s.blocks| + 2 && f.blocks[f.cur] == Blk(None, None, [], [])
            && f.blocks[f.cur + 1] == Blk(Some(t), Some(s.next), [], []) && s.next < f.next
            && !Closed(f.blocks[f.cur])
  {
  }

  /** The join: the phi takes the remainder from the division block and zero from before it. */
  lemma EnterJoin(p: Prog, g: Graph, end: Label, ty: IntTy, phi: nat, v: Opd, f: Label, z: Opd, f': Label,
                  from: Label, env: Env, mem: Env, val: Val)
    requires Grows(g, p.blocks) && end < |g| && f != f'
    requires g[end] == Blk(Some(ty), Some(phi), [In(v, f), In(z, f')], [])
    requires (from == f && Eval(v, env, p.args) == Some(val)) || (from == f' && Eval(z, env, p.args) == Some(val))
    ensures Enter(p, from, end, env, mem) == Running(end, 0, env[phi := val], mem)
  {
    assert BlkGrows(g[end], p.blocks[end]);
    var inc := [In(v, f), In(z, f')];
    assert inc[1..] == [In(z, f')];
    assert Lookup(inc[1..], f') == Some(z);
    LookupGrows(inc, p.blocks[end].incoming, from);
  }

  lemma JoinShape(s: TState, t: IntTy, a: Opd, b: Opd, pre: Label, end: Label, phi: nat)
    requires s.cur < |s.blocks| && end < |s.blocks| && end != s.cur && s.blocks[end] == Blk(Some(t), Some(phi), [], [])
    ensures var s1 := EmitBin(s, LSRem, a, b);
            var j := SRemJoin(s, t, a, b, pre, end, phi);
            && j.blocks[end] == Blk(Some(t), Some(phi), [In(Reg(s.next, TypeOf(a)), s.cur), In(Const(Zero(t)), pre)], [])
            && j.cur == end && j.next == s.next + 1 && |j.blocks| == |s.blocks|
            && (forall g :: Grows(j.blocks, g) ==> Grows(Emit(s1, Br(end)).blocks, g))
  {
    var s1 := EmitBin(s, LSRem, a, b);
    var j := SRemJoin(s, t, a, b, pre, end, phi);
    forall g | Grows(j.blocks, g)
      ensures Grows(Emit(s1, Br(end)).blocks, g)
    {
      forall k | 0 <= k < |s.blocks|
        ensures BlkGrows(Emit(s1, Br(end)).blocks[k], g[k])
      {
        assert BlkGrows(j.blocks[k], g[k]);
      }
    }
  }

  /** The division block: the remainder, then the edge to the join. */
  lemma SRemBlockSim(p: Prog, s: TState, cs: CState, t: IntTy, a: Opd, b: Opd, va: Val, vb: Val,
                     pre: Label, end: Label, phi: nat, v: Val)
    requires Operands(p, s, cs, t, a, b, va, vb) && LBin(LSRem, va, vb) == Some(v) && v.ty == t
    requires end < |s.blocks| && end != s.cur && pre != s.cur && s.blocks[end] == Blk(Some(t), Some(phi), [], [])
    requires Grows(SRemJoin(s, t, a, b, pre, end, phi).blocks, p.blocks)
    ensures RunN(p, cs, 2) == Running(end, 0, cs.env[s.next := v][phi := v], cs.mem)
  {
    hide Grows, SRemJoin, Closed, Advance, RunN, LBin, Enter;
    JoinShape(s, t, a, b, pre, end, phi);
    var s1 := EmitBin(s, LSRem, a, b);
    EmitBack(s1, Br(end), p.blocks);
    BinStep(p, s, cs, LSRem, a, b, va, vb, v);
    BrStep(p, s1, Advance(p, cs), end);
    RunZero(p, cs);
    RunNext(p, cs, 0);
    RunNext(p, cs, 1);
    EnterJoin(p, SRemJoin(s, t, a, b, pre, end, phi).blocks, end, t, phi, Reg(s.next, TypeOf(a)), s.cur,
              Const(Zero(t)), pre, s.cur, Advance(p, cs).env, cs.mem, v);
  }

  lemma BrStep(p: Prog, s: TState, cs: CState, t: Label)
    requires StandsAt(s, cs) && Grows(Emit(s, Br(t)).blocks, p.blocks)
    ensures Advance(p, cs) == Enter(p, s.cur, t, cs.env, cs.mem)
  {
    InstThere(p, s, Br(t));
  }

  lemma JoinBack(s: TState, t: IntTy, a: Opd, b: Opd, pre: Label, end: Label, phi: nat, g: Graph)
    requires s.cur < |s.blocks| && end < |s.blocks| && end != s.cur && s.blocks[end] == Blk(Some(t), Some(phi), [], [])
    requires !Closed(s.blocks[s.cur]) && Grows(SRemJoin(s, t, a, b, pre, end, phi).blocks, g)
    ensures Grows(s.blocks, g)
  {
    hide Grows, SRemJoin;
    JoinShape(s, t, a, b, pre, end, phi);
    EmitBack(EmitBin(s, LSRem, a, b), Br(end), g);
    BinBack(s, LSRem, a, b, g);
  }

  /** The signed remainder once the divisor is known not to be zero. */
  lemma SRemTailSim(p: Prog, s: TState, cs: CState, t: IntTy, a: Opd, b: Opd, va: Val, vb: Val) returns (n: nat)
    requires Operands(p, s, cs, t, a, b, va, vb) && vb.bits != 0
    requires Grows(SRemJoin(SRemFork(s, t, a, b), t, a, b, s.cur, |s.blocks| + 1, s.next).blocks, p.blocks)
    ensures var j := SRemJoin(SRemFork(s, t, a, b), t, a, b, s.cur, |s.blocks| + 1, s.next);
            && Moved(p, s, cs, j, RunN(p, cs, n))
            && BinSem(RemS, va, vb).Value? && Holds(p, Reg(s.next, t), BinSem(RemS, va, vb).v, RunN(p, cs, n).env)
  {
    hide Grows, SRemFork, SRemJoin, Advance, RunN, LBin, Enter, MinSigned, MinusOne, BinSem;
    var f := SRemFork(s, t, a, b);
    var end := |s.blocks| + 1;
    ForkShape(s, t, a, b);
    JoinShape(f, t, a, b, s.cur, end, s.next);
    JoinBack(f, t, a, b, s.cur, end, s.next, p.blocks);
    DivSem(RemS, va, vb);
    SRemForkSim(p, s, cs, t, a, b, va, vb);
    var cs3 := RunN(p, cs, 3);
    if va != MinSigned(t) || vb != MinusOne(t) {
      n := 6;
      var cs4 := RunN(p, cs, 4);
      assert Operands(p, f, cs4, t, a, b, va, vb);
      SRemBlockSim(p, f, cs4, t, a, b, va, vb, s.cur, end, s.next, LBin(LSRem, va, vb).value);
      RunSplit(p, cs, 4, 2);
    } else {
      n := 4;
      EnterJoin(p, SRemJoin(f, t, a, b, s.cur, end, s.next).blocks, end, t, s.next, Reg(f.next, TypeOf(a)), f.cur,
                Const(Zero(t)), s.cur, s.cur, cs3.env, cs.mem, Zero(t));
    }
  }
}

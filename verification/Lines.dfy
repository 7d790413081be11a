/** One instruction without a nested body: the machine follows it. */
module Lines {
  import opened Values
  import opened Cfg
  import opened Wasm
  import opened TranslatorSpec
  import opened Invariant
  import opened Steps
  import opened Structure
  import opened Acceptance
  import opened Simulation
  import opened NumericSim

  /** The values below h are the same. */
  ghost predicate Keeps(vs: seq<Val>, vs': seq<Val>, h: nat) {
    h <= |vs| && h <= |vs'| && vs'[..h] == vs[..h]
  }

  /** A straight-line instruction has run: on to s', or trapped. */
  ghost predicate LineOk(p: Prog, lt: seq<WTy>, s: TState, s': TState, vs: seq<Val>, cs: CState, r: Outcome) {
    && |s.cf| > 0
    && match r
       case Next(vs', lo') => Agrees(p, lt, s', cs, vs', lo') && Keeps(vs, vs', Top(s).outerStack)
       case Trap(lo') => Cells(lt, lo') && cs == Trapped(MemOf(lo'))
       case _ => false
  }

  // ----- numeric instructions -----

  /** Results replace the operands they were computed from. */
  lemma PushRel(p: Prog, lt: seq<WTy>, s: TState, cs: CState, s': TState, cs': CState, vs: seq<Val>, v: Val, lo: seq<Val>)
    requires Agrees(p, lt, s, cs, vs, lo) && AllBelow(s.stack, s.next)
    requires s'.stack != [] && Front(s'.stack) == s.stack
    requires Moved(p, s, cs, s', cs') && Holds(p, Last(s'.stack), v, cs'.env)
    ensures Agrees(p, lt, s', cs', vs + [v], lo)
  {
    HoldLater(p, s.stack, vs, cs.env, cs'.env, s.next);
    forall k | 0 <= k < |s'.stack|
      ensures Holds(p, s'.stack[k], (vs + [v])[k], cs'.env)
    {
      if k < |s.stack| {
        assert s'.stack[k] == Front(s'.stack)[k];
        assert Holds(p, s.stack[k], vs[k], cs'.env);
      }
    }
  }

  lemma PopRel(p: Prog, lt: seq<WTy>, s: TState, cs: CState, vs: seq<Val>, lo: seq<Val>)
    requires Agrees(p, lt, s, cs, vs, lo) && CanPop(s)
    ensures vs != [] && Agrees(p, lt, Drop(s), cs, Front(vs), lo) && Holds(p, TopOpd(s), Last(vs), cs.env)
    ensures Last(vs).ty == TypeOf(TopOpd(s))
  {
    forall k | 0 <= k < |s.stack| - 1
      ensures Holds(p, Drop(s).stack[k], Front(vs)[k], cs.env)
    {
      assert Holds(p, s.stack[k], vs[k], cs.env);
    }
  }

  lemma ReadyRegs(s: TState)
    requires Ready(s)
    ensures AllBelow(s.stack, s.next) && s.cur < |s.blocks| && !Closed(s.blocks[s.cur])
    ensures Top(s).outerStack <= |s.stack|
  {
    assert FrameOk(Top(s), |s.cf| - 1, |s.stack|);
  }

  /** A comparison widened to an i32. */
  lemma CmpSim(p: Prog, lt: seq<WTy>, s: TState, cs: CState, vs: seq<Val>, lo: seq<Val>, r: Pred, a: Opd, b: Opd, va: Val, vb: Val)
    requires Agrees(p, lt, s, cs, vs, lo) && AllBelow(s.stack, s.next) && !Closed(s.blocks[s.cur])
    requires Holds(p, a, va, cs.env) && Holds(p, b, vb, cs.env) && va.ty == vb.ty
    requires Grows(PushBool(EmitBin(s, LCmp(r), a, b), Reg(s.next, I1)).blocks, p.blocks)
    ensures Agrees(p, lt, PushBool(EmitBin(s, LCmp(r), a, b), Reg(s.next, I1)), RunN(p, cs, 2),
                vs + [Val(I32, if Compare(r, va, vb) then 1 else 0)], lo)
  {
    var s1 := EmitBin(s, LCmp(r), a, b);
    var v := Val(I32, if Compare(r, va, vb) then 1 else 0);
    EmitBack(s1, ZExt(s1.next, Reg(s.next, I1)), p.blocks);
    BinStep(p, s, cs, LCmp(r), a, b, va, vb, FromBool(Compare(r, va, vb)));
    var cs1 := Advance(p, cs);
    ZExtStep(p, s1, cs1, Reg(s.next, I1), Compare(r, va, vb));
    hide Grows, Compare, Advance, RunN;
    RunZero(p, cs);
    RunNext(p, cs, 0);
    RunNext(p, cs, 1);
    PushRel(p, lt, s, cs, PushBool(s1, Reg(s.next, I1)), RunN(p, cs, 2), vs, v, lo);
  }

  lemma ZExtStep(p: Prog, s: TState, cs: CState, a: Opd, c: bool)
    requires StandsAt(s, cs) && Grows(EmitDef(s, ZExt(s.next, a)).blocks, p.blocks)
    requires Holds(p, a, FromBool(c), cs.env)
    ensures StandsAt(EmitDef(s, ZExt(s.next, a)), Advance(p, cs)) && Advance(p, cs).mem == cs.mem
    ensures Advance(p, cs).env == cs.env[s.next := Val(I32, if c then 1 else 0)]
  {
    InstThere(p, s, ZExt(s.next, a));
  }

  /** The two operands of a binary instruction. */
  lemma PopTwo(p: Prog, lt: seq<WTy>, s: TState, cs: CState, vs: seq<Val>, lo: seq<Val>, st: Opds, t: Ty)
    requires Ready(s) && Floor(s) && Agrees(p, lt, s, cs, vs, lo)
    requires Typed(s.stack, Top(s).outerStack, st.vals) && !st.dead
    requires PopTy(st, t).Some? && PopTy(PopTy(st, t).value, t).Some?
    ensures CanPopTy(s, t) && CanPopTy(Drop(s), t)
    ensures vs != [] && Front(vs) != [] && Last(vs).ty == t && Last(Front(vs)).ty == t
    ensures Holds(p, TopOpd(s), Last(vs), cs.env) && Holds(p, TopOpd(Drop(s)), Last(Front(vs)), cs.env)
    ensures RegBelow(TopOpd(s), s.next) && RegBelow(TopOpd(Drop(s)), s.next)
    ensures var s2 := Drop(Drop(s));
            && Ready(s2) && Agrees(p, lt, s2, cs, Front(Front(vs)), lo) && Floor(s2)
            && Keeps(vs, Front(Front(vs)), Top(s).outerStack)
  {
    PopTyped(s, st, t);
    PopTyped(Drop(s), PopTy(st, t).value, t);
    DropReady(s);
    DropReady(Drop(s));
    hide Ready, Typed;
    PopRel(p, lt, s, cs, vs, lo);
    PopRel(p, lt, Drop(s), cs, Front(vs), lo);
  }

  lemma PopOne(p: Prog, lt: seq<WTy>, s: TState, cs: CState, vs: seq<Val>, lo: seq<Val>, st: Opds, t: Ty)
    requires Ready(s) && Floor(s) && Agrees(p, lt, s, cs, vs, lo)
    requires Typed(s.stack, Top(s).outerStack, st.vals) && !st.dead && PopTy(st, t).Some?
    ensures cs.Running? && CanPopTy(s, t) && vs != [] && Last(vs).ty == t && Holds(p, TopOpd(s), Last(vs), cs.env)
    ensures RegBelow(TopOpd(s), s.next)
    ensures Ready(Drop(s)) && Agrees(p, lt, Drop(s), cs, Front(vs), lo) && Floor(Drop(s))
    ensures Keeps(vs, Front(vs), Top(s).outerStack)
  {
    PopTyped(s, st, t);
    DropReady(s);
    hide Ready, Typed;
    PopRel(p, lt, s, cs, vs, lo);
  }

  lemma KeepsPush(vs: seq<Val>, vs': seq<Val>, v: Val, h: nat)
    requires Keeps(vs, vs', h)
    ensures Keeps(vs, vs' + [v], h)
  {
    assert (vs' + [v])[..h] == vs'[..h];
  }

  lemma NumSim(p: Prog, lt: seq<WTy>, s: TState, cs: CState, vs: seq<Val>, lo: seq<Val>, st: Opds, op: NumOp) returns (n: nat)
    requires s.cur < |s.blocks| && Ready(s) && Floor(s) && Agrees(p, lt, s, cs, vs, lo)
    requires Typed(s.stack, Top(s).outerStack, st.vals) && !st.dead && CheckNum(op, st).Some?
    requires StepNum(s, op).Some? && Grows(StepNum(s, op).value.blocks, p.blocks)
    ensures LineOk(p, lt, s, StepNum(s, op).value, vs, RunN(p, cs, n), ExecNum(op, vs, lo))
  {
    hide Ready, Typed, Floor, Grows, EmitBinary, PushBool, Closed, Compare, BinSem, RunN, Holds, Cells, AllHold, Agrees, Keeps;
    ReadyFacts(s);
    match op
    case Eqz(t) =>
      PopOne(p, lt, s, cs, vs, lo, st, t);
      ReadyRegs(Drop(s));
      n := 2;
      ConstHolds(p, t, cs.env);
      CmpSim(p, lt, Drop(s), cs, Front(vs), lo, Eq, TopOpd(s), Const(Zero(t)), Last(vs), Zero(t));
      CmpZero(Last(vs), t);
      KeepsPush(vs, Front(vs), Val(I32, if Last(vs).bits == 0 then 1 else 0), Top(s).outerStack);
    case Rel(t, r) =>
      PopTwo(p, lt, s, cs, vs, lo, st, t);
      var s2, vs2 := Drop(Drop(s)), Front(Front(vs));
      ReadyRegs(s2);
      n := 2;
      CmpSim(p, lt, s2, cs, vs2, lo, r, TopOpd(Drop(s)), TopOpd(s), Last(Front(vs)), Last(vs));
      KeepsPush(vs, vs2, Val(I32, if Compare(r, Last(Front(vs)), Last(vs)) then 1 else 0), Top(s).outerStack);
    case Arith(t, o) =>
      PopTwo(p, lt, s, cs, vs, lo, st, t);
      n := ArithSim(p, lt, Drop(Drop(s)), cs, Front(Front(vs)), lo, t, o, TopOpd(Drop(s)), TopOpd(s), Last(Front(vs)), Last(vs));
      if BinSem(o, Last(Front(vs)), Last(vs)).Value? {
        KeepsPush(vs, Front(Front(vs)), BinSem(o, Last(Front(vs)), Last(vs)).v, Top(s).outerStack);
      }
  }

  lemma ConstHolds(p: Prog, t: Ty, env: Env)
    ensures Holds(p, Const(Zero(t)), Zero(t), env)
  {
  }

  lemma CmpZero(v: Val, t: Ty)
    requires v.ty == t
    ensures Compare(Eq, v, Zero(t)) <==> v.bits == 0
  {
  }

  lemma ArithSim(p: Prog, lt: seq<WTy>, s: TState, cs: CState, vs: seq<Val>, lo: seq<Val>, t: IntTy, op: BinOp,
                 a: Opd, b: Opd, va: Val, vb: Val) returns (n: nat)
    requires s.cur < |s.blocks| && Ready(s) && Agrees(p, lt, s, cs, vs, lo)
    requires Holds(p, a, va, cs.env) && Holds(p, b, vb, cs.env) && va.ty == t && vb.ty == t
    requires RegBelow(a, s.next) && RegBelow(b, s.next) && Grows(EmitBinary(s, t, op, a, b).blocks, p.blocks)
    ensures match BinSem(op, va, vb)
            case Value(v) => Agrees(p, lt, EmitBinary(s, t, op, a, b), RunN(p, cs, n), vs + [v], lo)
            case NumTrap => Cells(lt, lo) && RunN(p, cs, n) == Trapped(MemOf(lo))
            case NumStuck => false
  {
    hide Grows, EmitBinary, BinSem, RunN, Closed, Ready;
    ReadyRegs(s);
    n := BinarySim(p, s, cs, t, op, a, b, va, vb);
    if BinSem(op, va, vb).Value? {
      PushRel(p, lt, s, cs, EmitBinary(s, t, op, a, b), RunN(p, cs, n), vs, BinSem(op, va, vb).v, lo);
    }
  }

  // ----- select and locals -----

  lemma SelectStep(p: Prog, s: TState, cs: CState, c: Opd, a: Opd, b: Opd, ok: bool, va: Val, vb: Val)
    requires StandsAt(s, cs) && !Closed(s.blocks[s.cur]) && Grows(EmitDef(s, Select(s.next, c, a, b)).blocks, p.blocks)
    requires Holds(p, c, FromBool(ok), cs.env) && Holds(p, a, va, cs.env) && Holds(p, b, vb, cs.env) && va.ty == vb.ty
    ensures var v := if ok then va else vb; var cs' := Advance(p, cs);
            && Moved(p, s, cs, EmitDef(s, Select(s.next, c, a, b)), cs') && Holds(p, Reg(s.next, TypeOf(a)), v, cs'.env)
  {
    InstThere(p, s, Select(s.next, c, a, b));
  }

  lemma SelectSim(p: Prog, lt: seq<WTy>, s: TState, cs: CState, vs: seq<Val>, lo: seq<Val>,
                  c: Opd, a: Opd, b: Opd, vc: Val, va: Val, vb: Val)
    requires s.cur < |s.blocks| && Ready(s) && Agrees(p, lt, s, cs, vs, lo)
    requires Holds(p, c, vc, cs.env) && Holds(p, a, va, cs.env) && Holds(p, b, vb, cs.env)
    requires vc.ty == I32 && va.ty == vb.ty && RegBelow(a, s.next) && RegBelow(b, s.next)
    requires var s4 := EmitBin(s, LCmp(Ne), c, Const(Zero(I32)));
             Grows(EmitDef(s4, Select(s4.next, Reg(s.next, I1), a, b)).blocks, p.blocks)
    ensures var s4 := EmitBin(s, LCmp(Ne), c, Const(Zero(I32)));
            Agrees(p, lt, Push(EmitDef(s4, Select(s4.next, Reg(s.next, I1), a, b)), Reg(s4.next, TypeOf(a))),
                RunN(p, cs, 2), vs + [if vc.bits != 0 then va else vb], lo)
  {
    hide Ready, Grows, Advance, RunN, Closed, Cells, EmitBin, Holds, SameBelow, AllHold;
    var s4 := EmitBin(s, LCmp(Ne), c, Const(Zero(I32)));
    var sel, v := Select(s4.next, Reg(s.next, I1), a, b), if vc.bits != 0 then va else vb;
    ReadyRegs(s);
    SelectBack(s, c, sel, p.blocks);
    TestSim(p, s, cs, c, vc);
    var cs1 := Advance(p, cs);
    OneStep(p, cs);
    HoldsLater(p, a, va, cs.env, cs1.env, s.next);
    HoldsLater(p, b, vb, cs.env, cs1.env, s.next);
    SelectStep(p, s4, cs1, Reg(s.next, I1), a, b, vc.bits != 0, va, vb);
    RunNext(p, cs, 1);
    MovedTrans(p, s, cs, s4, cs1, EmitDef(s4, sel), RunN(p, cs, 2));
    PushRel(p, lt, s, cs, Push(EmitDef(s4, sel), Reg(s4.next, TypeOf(a))), RunN(p, cs, 2), vs, v, lo);
  }

  lemma SelectBack(s: TState, c: Opd, i: Inst, g: Graph)
    requires s.cur < |s.blocks|
    requires Grows(EmitDef(EmitBin(s, LCmp(Ne), c, Const(Zero(I32))), i).blocks, g)
    ensures Grows(EmitBin(s, LCmp(Ne), c, Const(Zero(I32))).blocks, g)
  {
    EmitBack(EmitBin(s, LCmp(Ne), c, Const(Zero(I32))), i, g);
  }

  /** i32_to_bool: the condition is tested against zero. */
  lemma TestSim(p: Prog, s: TState, cs: CState, c: Opd, vc: Val)
    requires StandsAt(s, cs) && !Closed(s.blocks[s.cur]) && Holds(p, c, vc, cs.env) && vc.ty == I32
    requires Grows(EmitBin(s, LCmp(Ne), c, Const(Zero(I32))).blocks, p.blocks)
    ensures var s1 := EmitBin(s, LCmp(Ne), c, Const(Zero(I32)));
            Moved(p, s, cs, s1, Advance(p, cs)) && Holds(p, Reg(s.next, I1), FromBool(vc.bits != 0), Advance(p, cs).env)
  {
    CmpVal(vc, Zero(I32));
    BinStep(p, s, cs, LCmp(Ne), c, Const(Zero(I32)), vc, Zero(I32), FromBool(vc.bits != 0));
    hide Grows, Advance;
  }

  lemma SelectLine(p: Prog, lt: seq<WTy>, s: TState, cs: CState, vs: seq<Val>, lo: seq<Val>, ctx: Ctx, st: Opds)
    requires s.cur < |s.blocks| && Ready(s) && Floor(s) && Agrees(p, lt, s, cs, vs, lo)
    requires Typed(s.stack, Top(s).outerStack, st.vals) && !st.dead && CheckSimple(ctx, ISelect, st).Some?
    requires StepSelect(s).Some? && Grows(StepSelect(s).value.blocks, p.blocks)
    ensures LineOk(p, lt, s, StepSelect(s).value, vs, RunN(p, cs, 2), ExecSimple(ISelect, vs, lo))
  {
    hide Ready, Typed, Floor, Grows, EmitBin, RunN, Holds, Cells, AllHold, Agrees, Keeps;
    ReadyFacts(s);
    PopTyped(s, st, I32);
    PopOne(p, lt, s, cs, vs, lo, st, I32);
    var s1, vs1, st1 := Drop(s), Front(vs), PopTy(st, I32).value;
    PopTyped(s1, st1, I32);
    PopOne(p, lt, s1, cs, vs1, lo, st1, TypeOf(TopOpd(s1)));
    var s2, vs2, st2 := Drop(s1), Front(vs1), PopAny(st1).value.1;
    PopTyped(s2, st2, I32);
    PopOne(p, lt, s2, cs, vs2, lo, st2, TypeOf(TopOpd(s2)));
    var s3, vs3 := Drop(s2), Front(vs2);
    SelectSim(p, lt, s3, cs, vs3, lo, TopOpd(s), TopOpd(s2), TopOpd(s1), Last(vs), Last(vs2), Last(vs1));
    assert vs3 == vs[..|vs| - 3];
    KeepsTrans(vs, vs1, vs2, vs3, Top(s).outerStack);
    KeepsPush(vs, vs3, if Last(vs).bits != 0 then Last(vs2) else Last(vs1), Top(s).outerStack);
  }

  lemma KeepsTrans(vs: seq<Val>, vs1: seq<Val>, vs2: seq<Val>, vs3: seq<Val>, h: nat)
    requires Keeps(vs, vs1, h) && Keeps(vs1, vs2, h) && Keeps(vs2, vs3, h)
    ensures Keeps(vs, vs3, h)
  {
  }

  lemma LoadSim(p: Prog, lt: seq<WTy>, s: TState, cs: CState, vs: seq<Val>, lo: seq<Val>, x: nat)
    requires s.cur < |s.blocks| && Ready(s) && Agrees(p, lt, s, cs, vs, lo) && x < |lt|
    requires Grows(EmitDef(s, Load(s.next, x)).blocks, p.blocks)
    ensures Agrees(p, lt, Push(EmitDef(s, Load(s.next, x)), Reg(s.next, lt[x])), Advance(p, cs), vs + [lo[x]], lo)
  {
    ReadyRegs(s);
    InstThere(p, s, Load(s.next, x));
    hide Ready, Grows;
    PushRel(p, lt, s, cs, Push(EmitDef(s, Load(s.next, x)), Reg(s.next, lt[x])), Advance(p, cs), vs, lo[x], lo);
  }

  /** A store changes one cell. */
  lemma StoreSim(p: Prog, lt: seq<WTy>, s: TState, cs: CState, vs: seq<Val>, lo: seq<Val>, x: nat, o: Opd, v: Val)
    requires Agrees(p, lt, s, cs, vs, lo) && x < |lt| && Holds(p, o, v, cs.env) && v.ty == lt[x]
    requires Grows(Emit(s, Store(x, o)).blocks, p.blocks)
    ensures Agrees(p, lt, Emit(s, Store(x, o)), Advance(p, cs), vs, lo[x := v])
  {
    InstThere(p, s, Store(x, o));
    assert MemOf(lo)[x := v] == MemOf(lo[x := v]);
  }

  lemma OneStep(p: Prog, cs: CState)
    ensures RunN(p, cs, 1) == Advance(p, cs)
  {
    RunZero(p, cs);
    hide Advance;
    RunNext(p, cs, 0);
  }

  lemma KeepsSelf(vs: seq<Val>, h: nat)
    requires h <= |vs|
    ensures Keeps(vs, vs, h)
  {
  }

  lemma LocalSim(p: Prog, ctx: Ctx, s: TState, cs: CState, vs: seq<Val>, lo: seq<Val>, st: Opds, i: Simple) returns (n: nat)
    requires InRange(s) && Ready(s) && Floor(s) && Agrees(p, ctx.locals, s, cs, vs, lo)
    requires Typed(s.stack, Top(s).outerStack, st.vals) && !st.dead && CheckSimple(ctx, i, st).Some?
    requires i.INop? || i.IDrop? || i.IConst? || i.IGetLocal? || i.ISetLocal? || i.ITeeLocal?
    requires StepPlain(ctx.locals, s, i).Some? && Grows(StepPlain(ctx.locals, s, i).value.blocks, p.blocks)
    ensures LineOk(p, ctx.locals, s, StepPlain(ctx.locals, s, i).value, vs, RunN(p, cs, n), ExecSimple(i, vs, lo))
  {
    var lt, h := ctx.locals, Top(s).outerStack;
    AgreesFacts(p, lt, s, cs, vs, lo);
    KeepsSelf(vs, h);
    RunZero(p, cs);
    OneStep(p, cs);
    hide Ready, Typed, Grows, RunN, Advance, AllHold, Agrees, Keeps, Cells;
    match i
    case INop => n := 0;
    case IDrop =>
      n := 0;
      PopTyped(s, st, I32);
      PopOne(p, lt, s, cs, vs, lo, st, TypeOf(TopOpd(s)));
    case IConst(v) =>
      n := 0;
      ConstSim(p, lt, s, cs, vs, lo, v);
      KeepsPush(vs, vs, v, h);
    case IGetLocal(x) =>
      n := 1;
      LoadSim(p, lt, s, cs, vs, lo, x);
      KeepsPush(vs, vs, lo[x], h);
    case ISetLocal(x) =>
      n := 1;
      PopOne(p, lt, s, cs, vs, lo, st, lt[x]);
      StoreSim(p, lt, Drop(s), cs, Front(vs), lo, x, TopOpd(s), Last(vs));
    case ITeeLocal(x) =>
      n := 1;
      PopOne(p, lt, s, cs, vs, lo, st, lt[x]);
      StoreSim(p, lt, s, cs, vs, lo, x, TopOpd(s), Last(vs));
  }

  lemma AgreesFacts(p: Prog, lt: seq<WTy>, s: TState, cs: CState, vs: seq<Val>, lo: seq<Val>)
    requires Agrees(p, lt, s, cs, vs, lo)
    ensures |lo| == |lt| && |vs| == |s.stack| && cs.Running? && s.cur < |s.blocks| && StandsAt(s, cs)
    ensures forall x :: 0 <= x < |lo| ==> lo[x].ty == lt[x]
  {
  }

  lemma ConstSim(p: Prog, lt: seq<WTy>, s: TState, cs: CState, vs: seq<Val>, lo: seq<Val>, v: WVal)
    requires Agrees(p, lt, s, cs, vs, lo)
    ensures Agrees(p, lt, Push(s, Const(v)), cs, vs + [v], lo)
  {
  }
}

/** Straight-line instructions: what the emitted code computes is what section 4.4 prescribes. */
module NumericSim {
  import opened Values
  import opened Cfg
  import opened Wasm
  import opened TranslatorSpec
  import opened Invariant
  import opened Steps
  import opened Simulation

  /** The memory of a frame: one cell for each local. */
  function MemOf(lo: seq<Val>): Env { map x: nat | x < |lo| :: lo[x] }

  ghost predicate Cells(lt: seq<WTy>, lo: seq<Val>) {
    |lo| == |lt| && forall x :: 0 <= x < |lo| ==> lo[x].ty == lt[x]
  }

  /** The machine stands at s; its operands have the values vs and its cells the values lo. */
  ghost predicate Agrees(p: Prog, lt: seq<WTy>, s: TState, cs: CState, vs: seq<Val>, lo: seq<Val>) {
    StandsAt(s, cs) && AllHold(p, s.stack, vs, cs.env) && Cells(lt, lo) && cs.mem == MemOf(lo)
  }

  /** What n steps from cs make of a numeric operator that started in s with two operands: the machine
      is at s' with the value on top, or has trapped. */
  ghost predicate Computes(p: Prog, s: TState, cs: CState, s': TState, n: nat, r: NumResult) {
    match r
    case Value(v) => s'.stack != [] && Moved(p, s, cs, s', RunN(p, cs, n)) && Holds(p, Last(s'.stack), v, RunN(p, cs, n).env)
    case NumTrap => cs.Running? && RunN(p, cs, n) == Trapped(cs.mem)
    case NumStuck => false
  }

  lemma GuardedSim(p: Prog, s: TState, cs: CState, s1: TState, m: nat, op: LOp, t: IntTy,
                   a: Opd, b: Opd, va: Val, vb: Val, v: Val)
    requires Operands(p, s, cs, t, a, b, va, vb) && Moved(p, s, cs, s1, RunN(p, cs, m)) && s1.cur < |s1.blocks|
    requires Grows(BinPush(s1, op, a, b).blocks, p.blocks) && LBin(op, va, vb) == Some(v) && v.ty == t
    ensures Computes(p, s, cs, BinPush(s1, op, a, b), m + 1, Value(v))
  {
    hide Grows, LBin, Advance, RunN, Closed, EmitBin;
    var cs1 := RunN(p, cs, m);
    OperandsLater(p, s, cs, s1, cs1, t, a, b, va, vb);
    BinPushSim(p, s1, cs1, op, t, a, b, va, vb, v);
    RunNext(p, cs, m);
    MovedTrans(p, s, cs, s1, cs1, BinPush(s1, op, a, b), RunN(p, cs, m + 1));
  }

  lemma PlainBinSim(p: Prog, s: TState, cs: CState, op: LOp, t: IntTy, a: Opd, b: Opd, va: Val, vb: Val, v: Val)
    requires Operands(p, s, cs, t, a, b, va, vb)
    requires Grows(BinPush(s, op, a, b).blocks, p.blocks) && LBin(op, va, vb) == Some(v) && v.ty == t
    ensures Computes(p, s, cs, BinPush(s, op, a, b), 1, Value(v))
  {
    hide Grows, LBin, Advance, RunN, Closed, BinPush;
    RunZero(p, cs);
    GuardedSim(p, s, cs, s, 0, op, t, a, b, va, vb, v);
  }

  lemma BinPushBack(s: TState, op: LOp, a: Opd, b: Opd, g: Graph)
    requires s.cur < |s.blocks| && !Closed(s.blocks[s.cur]) && Grows(BinPush(s, op, a, b).blocks, g)
    ensures Grows(s.blocks, g)
  {
    BinBack(s, op, a, b, g);
  }

  lemma GuardOpen(s: TState, a: Opd, b: Opd)
    requires s.cur < |s.blocks|
    ensures var z := TrapZeroDiv(s, b); !Closed(z.blocks[z.cur])
    ensures var z := TrapSZeroDiv(s, a, b); !Closed(z.blocks[z.cur])
  {
    hide SZeroTest, EmitBin;
  }

  lemma SRemSim(p: Prog, s: TState, cs: CState, t: IntTy, a: Opd, b: Opd, va: Val, vb: Val) returns (n: nat)
    requires Operands(p, s, cs, t, a, b, va, vb)
    requires Grows(EmitSRem(s, t, a, b).blocks, p.blocks)
    ensures Computes(p, s, cs, EmitSRem(s, t, a, b), n, BinSem(RemS, va, vb))
  {
    hide Grows, SRemFork, SRemJoin, TrapZeroDiv, Advance, RunN, LBin, MinSigned, MinusOne, BinSem, Closed;
    var s0 := TrapZeroDiv(s, b);
    GuardOpen(s, a, b);
    SRemBack(s0, t, a, b, p.blocks);
    ZeroDivSim(p, s, cs, t, a, b, va, vb);
    DivSem(RemS, va, vb);
    if vb.bits == 0 {
      n := 3;
    } else {
      OperandsLater(p, s, cs, s0, RunN(p, cs, 2), t, a, b, va, vb);
      var m := SRemTailSim(p, s0, RunN(p, cs, 2), t, a, b, va, vb);
      n := 2 + m;
      RunSplit(p, cs, 2, m);
      SRemTop(s0, t, a, b);
      MovedTrans(p, s, cs, s0, RunN(p, cs, 2), EmitSRem(s, t, a, b), RunN(p, cs, n));
    }
  }

  lemma SRemTop(s: TState, t: IntTy, a: Opd, b: Opd)
    requires s.cur < |s.blocks|
    ensures var j := SRemJoin(SRemFork(s, t, a, b), t, a, b, s.cur, |s.blocks| + 1, s.next);
            j.stack != [] && Last(j.stack) == Reg(s.next, t)
  {
    hide SRemFork;
  }

  lemma SRemBack(s: TState, t: IntTy, a: Opd, b: Opd, g: Graph)
    requires s.cur < |s.blocks| && !Closed(s.blocks[s.cur])
    requires Grows(SRemJoin(SRemFork(s, t, a, b), t, a, b, s.cur, |s.blocks| + 1, s.next).blocks, g)
    ensures Grows(s.blocks, g)
  {
    hide Grows, SRemFork, SRemJoin, PairTest;
    var f := SRemFork(s, t, a, b);
    ForkShape(s, t, a, b);
    JoinBack(f, t, a, b, s.cur, |s.blocks| + 1, s.next, g);
    ForkBack(Prog(g, []), s, t, a, b);
    TestBack(s, t, a, b, g);
  }

  lemma TestBack(s: TState, t: IntTy, a: Opd, b: Opd, g: Graph)
    requires s.cur < |s.blocks| && Grows(ForkTest(s, t, a, b).blocks, g) && !Closed(s.blocks[s.cur])
    ensures Grows(s.blocks, g)
  {
    var g1 := ForkTest(s, t, a, b).blocks;
    forall k | 0 <= k < |s.blocks|
      ensures BlkGrows(s.blocks[k], g[k])
    {
      assert BlkGrows(g1[k], g[k]);
      assert k != s.cur ==> g1[k] == s.blocks[k];
    }
  }

  /** Every integer operator: the value of section 4.3.2 on top of the stack, or the trap. */
  lemma BinarySim(p: Prog, s: TState, cs: CState, t: IntTy, op: BinOp, a: Opd, b: Opd, va: Val, vb: Val) returns (n: nat)
    requires Operands(p, s, cs, t, a, b, va, vb)
    requires Grows(EmitBinary(s, t, op, a, b).blocks, p.blocks)
    ensures Computes(p, s, cs, EmitBinary(s, t, op, a, b), n, BinSem(op, va, vb))
  {
    hide Grows, TrapZeroDiv, TrapSZeroDiv, EmitSRem, BinPush, Advance, RunN, LBin, MinSigned, MinusOne, BinSem, Closed, Moved, Holds;
    DivSem(op, va, vb);
    GuardOpen(s, a, b);
    n := 1;
    match op
    case Add => PlainBinSim(p, s, cs, LAdd, t, a, b, va, vb, LBin(LAdd, va, vb).value);
    case Sub => PlainBinSim(p, s, cs, LSub, t, a, b, va, vb, LBin(LSub, va, vb).value);
    case Mul => PlainBinSim(p, s, cs, LMul, t, a, b, va, vb, LBin(LMul, va, vb).value);
    case DivU => n := ZeroGuardSim(p, s, cs, DivU, LUDiv, t, a, b, va, vb);
    case RemU => n := ZeroGuardSim(p, s, cs, RemU, LURem, t, a, b, va, vb);
    case DivS =>
      BinPushBack(TrapSZeroDiv(s, a, b), LSDiv, a, b, p.blocks);
      SZeroDivSim(p, s, cs, t, a, b, va, vb);
      if vb.bits == 0 || (va == MinSigned(t) && vb == MinusOne(t)) {
        n := 7;
      } else {
        n := 7;
        GuardedSim(p, s, cs, TrapSZeroDiv(s, a, b), 6, LSDiv, t, a, b, va, vb, LBin(LSDiv, va, vb).value);
      }
    case RemS => n := SRemSim(p, s, cs, t, a, b, va, vb);
  }

  lemma ZeroGuardSim(p: Prog, s: TState, cs: CState, op: BinOp, l: LOp, t: IntTy, a: Opd, b: Opd, va: Val, vb: Val)
    returns (n: nat)
    requires Operands(p, s, cs, t, a, b, va, vb)
    requires (op == DivU && l == LUDiv) || (op == RemU && l == LURem)
    requires Grows(BinPush(TrapZeroDiv(s, b), l, a, b).blocks, p.blocks)
    ensures Computes(p, s, cs, BinPush(TrapZeroDiv(s, b), l, a, b), n, BinSem(op, va, vb))
  {
    hide Grows, TrapZeroDiv, BinPush, Advance, RunN, LBin, BinSem, Closed, Moved, Holds;
    n := 3;
    DivSem(op, va, vb);
    GuardOpen(s, a, b);
    BinPushBack(TrapZeroDiv(s, b), l, a, b, p.blocks);
    ZeroDivSim(p, s, cs, t, a, b, va, vb);
    if vb.bits != 0 {
      GuardedSim(p, s, cs, TrapZeroDiv(s, b), 2, l, t, a, b, va, vb, LBin(l, va, vb).value);
    }
  }
}

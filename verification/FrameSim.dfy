/** Instructions, frames and sequences: the machine follows each, and the pieces compose. */
module FrameSim {
  import opened Values
  import opened Cfg
  import opened Wasm
  import opened TranslatorSpec
  import opened Invariant
  import opened Steps
  import opened Structure
  import opened Acceptance
  import opened Simulation
  import opened NumericSim
  import opened Lines
  import opened Edges

  /** A body translated from s to s' and started with operands vs has come to outcome r in n steps. */
  ghost predicate SimOk(p: Prog, lt: seq<WTy>, s: TState, s': TState, vs: seq<Val>, n: nat, fuel: nat, cs: CState, r: Outcome) {
    && |s.cf| > 0 && |s.labels| == |s.cf|
    && match r
       case Next(vs', lo') =>
         Live(s') && Agrees(p, lt, s', cs, vs', lo') && Keeps(vs, vs', Top(s).outerStack)
       case Branch(k, bst, lo') =>
         && k < |s.labels| && n >= 1
         && var j := |s.labels| - 1 - k;
            Lands(p, lt, s, s.labels[j].block, s.labels[j].sig, s.cf[j].outerStack, cs, vs, bst, lo')
       case Return(rst, lo') =>
         Lands(p, lt, s, s.cf[0].end, s.cf[0].sig, s.cf[0].outerStack, cs, vs, rst, lo')
       case Trap(lo') => Cells(lt, lo') && cs == Trapped(MemOf(lo'))
       case OutOfFuel => n >= fuel && cs.Running?
       case Crash => false
  }

  // ----- instructions -----

  /** A straight-line instruction leaves the frame live. */
  predicate Straight(i: Simple) {
    !i.IBr? && !i.IBrIf? && !i.IBrTable? && !i.IReturn? && !i.IUnreachable?
  }

  lemma LineLive(p: Prog, ctx: Ctx, s: TState, cs: CState, vs: seq<Val>, lo: seq<Val>, st: Opds, i: Simple) returns (n: nat)
    requires InRange(s) && Ready(s) && Floor(s) && Agrees(p, ctx.locals, s, cs, vs, lo) && Straight(i)
    requires Typed(s.stack, Top(s).outerStack, st.vals) && !st.dead && CheckSimple(ctx, i, st).Some?
    requires StepPlain(ctx.locals, s, i).Some? && Grows(StepPlain(ctx.locals, s, i).value.blocks, p.blocks)
    ensures LineOk(p, ctx.locals, s, StepPlain(ctx.locals, s, i).value, vs, RunN(p, cs, n), ExecSimple(i, vs, lo))
  {
    ReadyFacts(s);
    BranchRange(s, 0);
    hide Ready, InRange, Grows, Typed, StepNum, StepSelect, Agrees, LineOk, RunN;
    match i
    case ISelect => n := 2; hide ExecSimple; SelectLine(p, ctx.locals, s, cs, vs, lo, ctx, st);
    case INum(op) => n := NumSim(p, ctx.locals, s, cs, vs, lo, st, op);
    case _ => n := LocalSim(p, ctx, s, cs, vs, lo, st, i);
  }

  lemma UnreachableSim(p: Prog, s: TState, cs: CState)
    requires s.cur < |s.blocks| && StandsAt(s, cs) && !Closed(s.blocks[s.cur])
    requires Grows(Emit(TrapIf(s, Const(FromBool(true))), Unreachable).blocks, p.blocks)
    ensures RunN(p, cs, 2) == Trapped(cs.mem)
  {
    var c := Const(FromBool(true));
    var s1 := TrapIf(s, c);
    assert !Closed(s1.blocks[s1.cur]);
    EmitBack(s1, Unreachable, p.blocks);
    hide TrapIf, RunN, Grows, Closed;
    TrapIfStep(p, s, cs, c, FromBool(true));
  }

  /** br and return. */
  lemma JumpOk(p: Prog, lt: seq<WTy>, s: TState, cs: CState, vs: seq<Val>, lo: seq<Val>, i: Simple)
    requires InRange(s) && Ready(s) && Agrees(p, lt, s, cs, vs, lo)
    requires (i.IBr? || i.IReturn?) && StepPlain(lt, s, i).Some? && Grows(StepPlain(lt, s, i).value.blocks, p.blocks)
    ensures |s.cf| == |s.labels| && (i.IBr? ==> i.n < |s.labels|)
    ensures i.IBr? ==> var j := |s.labels| - 1 - i.n;
              Lands(p, lt, s, s.labels[j].block, s.labels[j].sig, s.cf[j].outerStack, RunN(p, cs, 1), vs, vs, lo)
    ensures i.IReturn? ==> Lands(p, lt, s, s.cf[0].end, s.cf[0].sig, s.cf[0].outerStack, RunN(p, cs, 1), vs, vs, lo)
  {
    hide Ready, InRange, Grows, Agrees, Lands, RunN, Core, CurOpen, JumpTo, StepPlain, EdgeOk, Builds, Frames;
    LabelsPer(s);
    ReadyBuilds(s);
    FloorsBelow(s);
    JumpShape(lt, s, i);
    var j := if i.IReturn? then 0 else |s.labels| - 1 - i.n;
    FrameEdge(s, j);
    var l := if i.IReturn? then BlockEntry(s.cf[0].sig, s.cf[0].end) else s.labels[j];
    JumpSim(p, lt, s, cs, vs, lo, l, s.cf[j].outerStack);
  }

  lemma JumpShape(lt: seq<WTy>, s: TState, i: Simple)
    requires InRange(s) && |s.cf| > 0 && (i.IBr? || i.IReturn?) && StepPlain(lt, s, i).Some?
    ensures i.IBr? ==> i.n < |s.labels|
    ensures var l := if i.IReturn? then BlockEntry(s.cf[0].sig, s.cf[0].end) else s.labels[|s.labels| - 1 - i.n];
            && s.cur < |s.blocks| && l.block < |s.blocks| && JumpTo(s, l).Some?
            && StepPlain(lt, s, i).value.blocks == JumpTo(s, l).value.blocks
  {
    hide JumpTo;
  }

  /** br, br_table, return and unreachable. */
  lemma LeaveSim(p: Prog, lt: seq<WTy>, s: TState, cs: CState, vs: seq<Val>, lo: seq<Val>, i: Simple, fuel: nat) returns (n: nat)
    requires InRange(s) && Ready(s) && |s.cf| > 0 && Agrees(p, lt, s, cs, vs, lo) && !Straight(i) && !i.IBrIf?
    requires StepPlain(lt, s, i).Some? && Grows(StepPlain(lt, s, i).value.blocks, p.blocks)
    ensures SimOk(p, lt, s, StepPlain(lt, s, i).value, vs, n, fuel, RunN(p, cs, n), ExecSimple(i, vs, lo))
  {
    hide Ready, InRange, Grows, Agrees, Lands, RunN, StepPlain;
    LabelsPer(s);
    n := 1;
    if i.IBrTable? {
      TableOk(p, lt, s, cs, vs, lo, i.ns, i.d, fuel);
    } else if i.IUnreachable? {
      n := 2;
      UnreachableOk(p, lt, s, cs, vs, lo);
    } else {
      JumpOk(p, lt, s, cs, vs, lo, i);
    }
  }

  lemma TableOk(p: Prog, lt: seq<WTy>, s: TState, cs: CState, vs: seq<Val>, lo: seq<Val>, ns: seq<nat>, d: nat, fuel: nat)
    requires InRange(s) && Ready(s) && |s.cf| > 0 && Agrees(p, lt, s, cs, vs, lo) && StepPlain(lt, s, IBrTable(ns, d)).Some?
    requires Grows(StepPlain(lt, s, IBrTable(ns, d)).value.blocks, p.blocks)
    ensures SimOk(p, lt, s, StepPlain(lt, s, IBrTable(ns, d)).value, vs, 1, fuel, RunN(p, cs, 1),
                  ExecSimple(IBrTable(ns, d), vs, lo))
  {
    hide Ready, InRange, Grows, Agrees, Lands, RunN, StepBrTable;
    BrTableSim(p, lt, s, cs, vs, lo, ns, d);
    BrTableTop(p, lt, s, cs, vs, lo, ns, d);
  }

  lemma UnreachableOk(p: Prog, lt: seq<WTy>, s: TState, cs: CState, vs: seq<Val>, lo: seq<Val>)
    requires InRange(s) && Ready(s) && |s.cf| > 0 && Agrees(p, lt, s, cs, vs, lo) && StepPlain(lt, s, IUnreachable).Some?
    requires Grows(StepPlain(lt, s, IUnreachable).value.blocks, p.blocks)
    ensures Cells(lt, lo) && RunN(p, cs, 2) == Trapped(MemOf(lo))
  {
    hide Ready, InRange, Grows, Agrees, RunN, Closed, TrapIf, Cells;
    ReadyRegs(s);
    AgreesMem(p, lt, s, cs, vs, lo);
    UnreachableSim(p, s, cs);
  }

  lemma LabelsPer(s: TState)
    requires Ready(s)
    ensures |s.labels| == |s.cf| > 0
  {
    ReadyFacts(s);
    ReadyBuilds(s);
    LabelPerFrame(s);
  }

  lemma AgreesMem(p: Prog, lt: seq<WTy>, s: TState, cs: CState, vs: seq<Val>, lo: seq<Val>)
    requires Agrees(p, lt, s, cs, vs, lo)
    ensures StandsAt(s, cs) && cs.mem == MemOf(lo) && Cells(lt, lo)
  {
  }

  lemma BrTableTop(p: Prog, lt: seq<WTy>, s: TState, cs: CState, vs: seq<Val>, lo: seq<Val>, ns: seq<nat>, d: nat)
    requires InRange(s) && |s.cf| > 0 && Agrees(p, lt, s, cs, vs, lo) && StepBrTable(s, ns, d).Some?
    ensures vs != [] && Last(vs).ty == I32
  {
    BrTableShape(s, ns, d);
    PopRel(p, lt, s, cs, vs, lo);
  }

  /** Any instruction without a body. */
  lemma PlainSim(p: Prog, ctx: Ctx, s: TState, cs: CState, vs: seq<Val>, lo: seq<Val>, st: Opds, i: Simple, fuel: nat)
    returns (n: nat)
    requires InRange(s) && Ready(s) && Floor(s) && Agrees(p, ctx.locals, s, cs, vs, lo)
    requires Matches(s, ctx, st) && CheckSimple(ctx, i, st).Some?
    requires StepPlain(ctx.locals, s, i).Some? && Grows(StepPlain(ctx.locals, s, i).value.blocks, p.blocks)
    ensures SimOk(p, ctx.locals, s, StepPlain(ctx.locals, s, i).value, vs, n, fuel, RunN(p, cs, n), ExecSimple(i, vs, lo))
  {
    LabelsPer(s);
    ReadyFacts(s);
    hide Ready, InRange, Grows, Agrees, RunN, Lands, Typed, StepPlain, ExecSimple, CheckSimple, Keeps, LabelsMatch;
    if i.IBrIf? {
      n := 2;
      BrIfOk(p, ctx.locals, s, cs, vs, lo, i.n, fuel);
    } else if Straight(i) {
      PlainAccepted(ctx, s, i, st);
      LineAlive(ctx, i, st);
      n := LineLive(p, ctx, s, cs, vs, lo, st, i);
    } else {
      n := LeaveSim(p, ctx.locals, s, cs, vs, lo, i, fuel);
    }
  }

  lemma BrIfOk(p: Prog, lt: seq<WTy>, s: TState, cs: CState, vs: seq<Val>, lo: seq<Val>, m: nat, fuel: nat)
    requires InRange(s) && Ready(s) && Floor(s) && Agrees(p, lt, s, cs, vs, lo)
    requires StepPlain(lt, s, IBrIf(m)).Some? && Grows(StepPlain(lt, s, IBrIf(m)).value.blocks, p.blocks)
    ensures SimOk(p, lt, s, StepPlain(lt, s, IBrIf(m)).value, vs, 2, fuel, RunN(p, cs, 2), ExecSimple(IBrIf(m), vs, lo))
  {
    hide Ready, InRange, Grows, Agrees, RunN, Lands, StepBrIf, Keeps;
    BrIfTop(p, lt, s, cs, vs, lo, m);
    BrIfSim(p, lt, s, cs, vs, lo, m);
  }

  lemma LineAlive(ctx: Ctx, i: Simple, st: Opds)
    requires Straight(i) && CheckSimple(ctx, i, st).Some? && !st.dead
    ensures !CheckSimple(ctx, i, st).value.dead
  {
  }

  lemma BrIfTop(p: Prog, lt: seq<WTy>, s: TState, cs: CState, vs: seq<Val>, lo: seq<Val>, n: nat)
    requires InRange(s) && Ready(s) && Floor(s) && Agrees(p, lt, s, cs, vs, lo) && StepBrIf(s, n).Some?
    ensures vs != [] && Last(vs).ty == I32 && Keeps(vs, Front(vs), Top(s).outerStack)
    ensures Live(StepBrIf(s, n).value)
  {
    BranchFrame(s, [], n);
    PopRel(p, lt, s, cs, vs, lo);
    hide Leave, BrIfTest, BranchDepth;
  }

  // ----- opening a frame -----

  /** Arriving at an empty block without a phi, the machine stands where emission goes on. */
  lemma ArrivedAgrees(p: Prog, lt: seq<WTy>, s: TState, cs: CState, vs: seq<Val>, bst: seq<Val>, lo: seq<Val>)
    requires s.cur < |s.blocks| && s.blocks[s.cur].insts == [] && Arrived(p, lt, s.cur, None, s.stack, cs, vs, bst, lo)
    ensures Agrees(p, lt, s, cs, vs, lo)
  {
  }

  lemma BlockSim(p: Prog, lt: seq<WTy>, s: TState, cs: CState, vs: seq<Val>, lo: seq<Val>, bt: BlockType)
    requires Agrees(p, lt, s, cs, vs, lo)
    ensures Agrees(p, lt, StepBlock(s, bt), cs, vs, lo)
  {
  }

  lemma LoopHeadSim(p: Prog, lt: seq<WTy>, s: TState, cs: CState, vs: seq<Val>, lo: seq<Val>, bt: BlockType)
    requires s.cur < |s.blocks| && Agrees(p, lt, s, cs, vs, lo) && Grows(StepLoop(s, bt).blocks, p.blocks)
    ensures Agrees(p, lt, StepLoop(s, bt), RunN(p, cs, 1), vs, lo)
  {
    var s1, loop := NewBlock(NewBlock(s, None), bt), |s.blocks|;
    var s2 := Emit(s1, Br(loop));
    OneStep(p, cs);
    assert s2.blocks[loop] == Blk(None, None, [], []);
    assert s2.blocks == StepLoop(s, bt).blocks;
    hide Grows, Enter, Advance, RunN;
    BrStep(p, s1, cs, loop);
    EnterPlain(p, s2.blocks, s.cur, loop, cs.env, cs.mem);
  }

  function IfBlocks(s: TState, bt: BlockType): TState {
    NewBlock(NewBlock(NewBlock(s, None), None), bt)
  }

  /** The condition decides between the empty then and else blocks. */
  lemma IfHeadSim(p: Prog, lt: seq<WTy>, s: TState, cs: CState, vs: seq<Val>, lo: seq<Val>, c: Opd, vc: Val, bt: BlockType)
    requires s.cur < |s.blocks| && Ready(s) && Agrees(p, lt, s, cs, vs, lo) && Holds(p, c, vc, cs.env) && vc.ty == I32
    requires Grows(IfHead(s, c, bt).blocks, p.blocks)
    ensures Arrived(p, lt, if vc.bits != 0 then |s.blocks| else |s.blocks| + 1, None, s.stack, RunN(p, cs, 2), vs, vs, lo)
  {
    hide Ready, Grows, Enter, Advance, RunN, IfBlocks, EmitBin, Cells, IfHead, AllHold, SameBelow;
    var s0, thn := IfBlocks(s, bt), |s.blocks|;
    IfShape(p, lt, s, cs, vs, lo, c, bt);
    var s1 := EmitBin(s0, LCmp(Ne), c, Const(Zero(I32)));
    var s2 := Emit(s1, CondBr(Reg(s0.next, I1), thn, thn + 1));
    ReadyRegs(s);
    OneStep(p, cs);
    EmitBack(s1, CondBr(Reg(s0.next, I1), thn, thn + 1), p.blocks);
    TestSim(p, s0, cs, c, vc);
    var cs1 := Advance(p, cs);
    MovedAgrees(p, lt, s0, cs, s1, cs1, vs, lo);
    CondBrStep(p, s1, cs1, Reg(s0.next, I1), thn, thn + 1, vc.bits != 0);
    EnterPlain(p, s2.blocks, s1.cur, if vc.bits != 0 then thn else thn + 1, cs1.env, cs1.mem);
    RunNext(p, cs, 1);
    EnterPresent(s2.blocks, p.blocks);
  }

  lemma EnterPresent(g: Graph, g': Graph)
    requires Grows(g, g')
    ensures |g| <= |g'|
  {
  }

  lemma IfShape(p: Prog, lt: seq<WTy>, s: TState, cs: CState, vs: seq<Val>, lo: seq<Val>, c: Opd, bt: BlockType)
    requires s.cur < |s.blocks| && Ready(s) && Agrees(p, lt, s, cs, vs, lo)
    ensures var s0, thn := IfBlocks(s, bt), |s.blocks|;
            && s0.stack == s.stack && s0.next >= s.next && s0.cur < |s0.blocks| && !Closed(s0.blocks[s0.cur])
            && Agrees(p, lt, s0, cs, vs, lo) && AllBelow(s0.stack, s0.next)
            && var s1 := EmitBin(s0, LCmp(Ne), c, Const(Zero(I32)));
            && |s1.blocks| == thn + 3 && s1.cur < |s1.blocks| && s1.stack == s.stack
            && var s2 := Emit(s1, CondBr(Reg(s0.next, I1), thn, thn + 1));
            && s2.blocks == IfHead(s, c, bt).blocks && s2.blocks[thn].phi == None && s2.blocks[thn + 1].phi == None
  {
    ReadyRegs(s);
    hide Ready;
  }

  // ----- closing a frame -----

  /** The operand that stands for a finished frame's result. */
  function ResultOpd(b: Blk, t: Ty): Opd {
    if b.phi.Some? then Reg(b.phi.value, t) else Const(Zero(t))
  }

  /** What end leaves in the graph and on the stack. */
  lemma EndShape(s: TState)
    requires Inv(s) && InRange(s) && |s.cf| > 0 && s.depth == 0 && StepEnd(s).Some?
    ensures CloseFrame(s).Some? && Top(s).outerStack <= |s.stack|
    ensures var s3, e := StepEnd(s).value, Top(s);
            && Grows(CloseFrame(s).value.blocks, s3.blocks)
            && s3.cur == e.end < |s3.blocks| && s3.blocks[e.end].insts == [] && s3.blocks[e.end].sig == e.sig
            && (e.els.Some? ==> e.els.value < |s3.blocks| && s3.blocks[e.els.value].insts == [Br(e.end)])
            && s3.stack == s.stack[..e.outerStack] +
                 (if e.sig.None? then [] else [ResultOpd(s3.blocks[e.end], e.sig.value)])
  {
    CloseFrameCore(s);
    InvFacts(s);
    var c := CloseFrame(s).value;
    hide CloseFrame, Inv, Ready, Floor, Frames, GraphOk, Regs;
    EndGraph(c);
    CompleteGrows(s, c);
    assert PendingOk(c.blocks, Top(c));
  }

  lemma CompleteGrows(s: TState, c: TState)
    requires Inv(s) && InRange(s) && |s.cf| > 0 && s.depth == 0 && CloseFrame(s) == Some(c)
    requires Core(c) && c == s.(stack := c.stack, blocks := c.blocks)
    ensures Top(c).outerBlocks <= |c.labels| && (Top(c).els.Some? ==> Top(c).els.value < |c.blocks|)
    ensures Top(c).end < |c.blocks|
    ensures Grows(c.blocks, PushResult(ToEnd(PopFrame(c), Top(c)), Top(c).sig, Top(c).end).blocks)
  {
    assert |s.cf| > 1 ==> s.cf[|s.cf| - 2].reachable;
    hide CloseFrame, Core, Inv, PushResult, ToEnd;
    DepthCore(c, c.depth);
    CompleteKept(c, c);
  }

  lemma EndGraph(c: TState)
    requires Core(c) && |c.cf| > 0
    ensures Top(c).outerBlocks <= |c.labels| && (Top(c).els.Some? ==> Top(c).els.value < |c.blocks|)
    ensures Top(c).end < |c.blocks|
    ensures var e := Top(c);
            var s3 := PushResult(ToEnd(PopFrame(c), e), e.sig, e.end);
            && s3.cur == e.end < |s3.blocks| && s3.blocks[e.end].insts == [] && s3.blocks[e.end].sig == e.sig
            && (e.els.Some? ==> e.els.value < |s3.blocks| && s3.blocks[e.els.value].insts == [Br(e.end)])
            && s3.stack == c.stack + (if e.sig.None? then [] else [ResultOpd(s3.blocks[e.end], e.sig.value)])
  {
    assert PendingOk(c.blocks, Top(c));
    assert FrameOk(Top(c), |c.cf| - 1, |c.stack|);
    hide Core;
  }

  /** The stack after a finished frame: the operands outside it and its result. */
  function Unwound(vs: seq<Val>, h: nat, sig: BlockType, bst: seq<Val>): seq<Val>
    requires h <= |vs| && (sig.Some? ==> bst != [])
  {
    vs[..h] + if sig.None? then [] else [Last(bst)]
  }

  /** Landing in the end block of the top frame is arriving where emission goes on after its end. */
  lemma ArriveSim(p: Prog, lt: seq<WTy>, s: TState, cs: CState, vs: seq<Val>, bst: seq<Val>, lo: seq<Val>)
    requires Inv(s) && InRange(s) && |s.cf| > 0 && s.depth == 0 && StepEnd(s).Some?
    requires Grows(StepEnd(s).value.blocks, p.blocks)
    requires Lands(p, lt, s, Top(s).end, Top(s).sig, Top(s).outerStack, cs, vs, bst, lo)
    ensures Agrees(p, lt, StepEnd(s).value, cs, Unwound(vs, Top(s).outerStack, Top(s).sig, bst), lo)
  {
    EndShape(s);
    hide Inv, InRange, StepEnd, Grows;
    var s3, e := StepEnd(s).value, Top(s);
    var us := Unwound(vs, e.outerStack, e.sig, bst);
    GrewBlock(s3.blocks, p.blocks, e.end);
    forall k | 0 <= k < |s3.stack|
      ensures Holds(p, s3.stack[k], us[k], cs.env)
    {
      if k < e.outerStack {
        assert Holds(p, s.stack[..e.outerStack][k], vs[..e.outerStack][k], cs.env);
      }
    }
  }

  lemma GrewBlock(g: Graph, g': Graph, b: Label)
    requires Grows(g, g') && b < |g|
    ensures b < |g'| && BlkGrows(g[b], g'[b])
  {
  }

  /** A live frame falling through to its end. */
  lemma CloseSim(p: Prog, lt: seq<WTy>, s: TState, cs: CState, vs: seq<Val>, lo: seq<Val>)
    requires Inv(s) && InRange(s) && |s.cf| > 0 && Live(s) && Agrees(p, lt, s, cs, vs, lo)
    requires CloseFrame(s).Some? && Grows(CloseFrame(s).value.blocks, p.blocks)
    ensures var h, sig := Top(s).outerStack, Top(s).sig;
            && Lands(p, lt, s, Top(s).end, sig, h, RunN(p, cs, 1), vs, vs, lo)
            && (sig.Some? ==> vs != []) && vs == Unwound(vs, h, sig, vs)
  {
    ReadyBuilds(s);
    FrameEdge(s, |s.cf| - 1);
    AgreesFacts(p, lt, s, cs, vs, lo);
    CloseHeight(s);
    hide Inv, InRange, Grows, RunN, Core, CurOpen, EdgeOk, JumpTo, Agrees, Lands, Ready, Builds;
    JumpSim(p, lt, s, cs, vs, lo, BlockEntry(Top(s).sig, Top(s).end), Top(s).outerStack);
  }

  lemma CloseHeight(s: TState)
    requires InRange(s) && |s.cf| > 0 && Live(s) && CloseFrame(s).Some?
    ensures |s.stack| == Top(s).outerStack + if Top(s).sig.None? then 0 else 1
  {
    hide Leave;
  }

  /** The absent arm of an if: straight to the end. */
  lemma FallSim(p: Prog, lt: seq<WTy>, s: TState, cs: CState, vs: seq<Val>, bst: seq<Val>, lo: seq<Val>)
    requires Inv(s) && InRange(s) && |s.cf| > 0 && s.depth == 0 && StepEnd(s).Some?
    requires Grows(StepEnd(s).value.blocks, p.blocks) && Top(s).els.Some? && Top(s).sig == None
    requires Lands(p, lt, s, Top(s).els.value, None, Top(s).outerStack, cs, vs, bst, lo)
    ensures Lands(p, lt, s, Top(s).end, None, Top(s).outerStack, RunN(p, cs, 1), vs, bst, lo)
  {
    hide Inv, InRange, StepEnd, Grows, Enter, Core, CurOpen;
    EndShape(s);
    EndKept(s);
    var s3, e := StepEnd(s).value, Top(s);
    GrewBlock(s3.blocks, p.blocks, e.end);
    GrewBlock(s3.blocks, p.blocks, e.els.value);
    NoPhi(s3, e.end);
    assert p.blocks[e.els.value].insts[0] == [Br(e.end)][0];
    assert Advance(p, cs) == Enter(p, e.els.value, e.end, cs.env, cs.mem);
    EnterPlain(p, s3.blocks, e.els.value, e.end, cs.env, cs.mem);
    OneStep(p, cs);
  }

  lemma NoPhi(s: TState, b: Label)
    requires Inv(s) && b < |s.blocks| && s.blocks[b].sig == None
    ensures s.blocks[b].phi == None
  {
    assert BlkOk(s.blocks, s.next, s.blocks[b]);
  }

  // ----- composition -----

  /** What the end of a frame passes on to the frame around it. */
  function Popped(r: Outcome): Outcome {
    if r.Branch? && r.n > 0 then r.(n := r.n - 1) else r
  }

  /** An outcome that leaves the frame s1 opened in s says the same of s. */
  lemma OuterSim(p: Prog, lt: seq<WTy>, s: TState, bt: BlockType, s1: TState, s2: TState, s': TState,
                 vs: seq<Val>, vs1: seq<Val>, n: nat, fuel: nat, cs: CState, r: Outcome)
    requires SimOk(p, lt, s1, s2, vs1, n, fuel, cs, r) && !r.Next? && !(r.Branch? && r.n == 0)
    requires Opens(s, bt, s1) && |s.labels| == |s.cf| && vs1 <= vs && Core(s1)
    ensures SimOk(p, lt, s, s', vs, n, fuel, cs, Popped(r))
  {
    if r.Branch? {
      var j := |s1.labels| - 1 - r.n;
      assert s1.labels[j] == s1.labels[..|s.labels|][j] && s1.cf[j] == s1.cf[..|s.cf|][j];
      FloorsBelow(s1);
      hide Core, Arrived, Cells;
      LandsFrom(p, lt, s1, s, s1.labels[j].block, s1.labels[j].sig, s1.cf[j].outerStack, cs, vs1, vs, r.bstack, r.blocals);
    } else if r.Return? {
      assert s1.cf[0] == s1.cf[..|s.cf|][0];
      FloorsBelow(s1);
      hide Core, Arrived, Cells;
      LandsFrom(p, lt, s1, s, s1.cf[0].end, s1.cf[0].sig, s1.cf[0].outerStack, cs, vs1, vs, r.rstack, r.rlocals);
    }
  }

  /** What follows in the same frame. */
  lemma SeqSim(p: Prog, lt: seq<WTy>, s: TState, s1: TState, s': TState,
               vs: seq<Val>, vs1: seq<Val>, n: nat, m: nat, fuel: nat, cs: CState, r: Outcome)
    requires SimOk(p, lt, s1, s', vs1, m, fuel, cs, r) && SameFrame(s, s1) && Keeps(vs, vs1, Top(s).outerStack)
    requires Core(s) && |s.labels| == |s.cf|
    ensures SimOk(p, lt, s, s', vs, n + m, fuel, cs, r)
  {
    FloorsBelow(s);
    if r.Branch? {
      var j := |s1.labels| - 1 - r.n;
      hide Core, Arrived, Cells;
      LandsFrom(p, lt, s1, s, s1.labels[j].block, s1.labels[j].sig, s1.cf[j].outerStack, cs, vs1, vs, r.bstack, r.blocals);
    } else if r.Return? {
      hide Core, Arrived, Cells;
      LandsFrom(p, lt, s1, s, s1.cf[0].end, s1.cf[0].sig, s1.cf[0].outerStack, cs, vs1, vs, r.rstack, r.rlocals);
    }
  }

  /** The outcome of a body as its end block sees it: falling through is one more way to get there. */
  ghost predicate AtEnd(p: Prog, lt: seq<WTy>, s1: TState, vs1: seq<Val>, cs: CState, r: Outcome) {
    && |s1.cf| > 0
    && match r
       case Next(vs', lo') =>
         && Lands(p, lt, s1, Top(s1).end, Top(s1).sig, |s1.stack|, cs, vs1, vs', lo')
         && vs' == Unwound(vs1, |s1.stack|, Top(s1).sig, vs')
       case Branch(_, bst, lo') => Lands(p, lt, s1, Top(s1).end, Top(s1).sig, |s1.stack|, cs, vs1, bst, lo')
       case _ => false
  }

  /** A live body that runs off its end. */
  lemma FallsOff(p: Prog, lt: seq<WTy>, s1: TState, s2: TState, vs1: seq<Val>, n: nat, fuel: nat, cs: CState, r: Outcome)
    requires SimOk(p, lt, s1, s2, vs1, n, fuel, cs, r) && r.Next?
    requires Top(s1).outerStack == |s1.stack| == |vs1| && SameFrame(s1, s2)
    requires Inv(s2) && InRange(s2) && CloseFrame(s2).Some? && Grows(CloseFrame(s2).value.blocks, p.blocks)
    ensures AtEnd(p, lt, s1, vs1, RunN(p, cs, 1), r)
  {
    hide Inv, InRange, Grows, RunN, Agrees, Arrived, CloseFrame;
    CloseSim(p, lt, s2, cs, r.stack, r.locals);
    LandsFrom(p, lt, s2, s1, Top(s1).end, Top(s1).sig, |s1.stack|, RunN(p, cs, 1), r.stack, vs1, r.stack, r.locals);
  }

  /** A branch to the label of a block or if. */
  lemma BranchesOut(p: Prog, lt: seq<WTy>, s1: TState, s2: TState, vs1: seq<Val>, n: nat, fuel: nat, cs: CState, r: Outcome)
    requires SimOk(p, lt, s1, s2, vs1, n, fuel, cs, r) && r.Branch? && r.n == 0
    requires Top(s1).outerStack == |s1.stack| && Last(s1.labels) == BlockEntry(Top(s1).sig, Top(s1).end)
    ensures AtEnd(p, lt, s1, vs1, cs, r)
  {
  }

  /** The frame's end, reached either way: the machine agrees with the state after it. */
  lemma CatchSim(p: Prog, lt: seq<WTy>, s: TState, bt: BlockType, s1: TState, s2: TState,
                 vs: seq<Val>, vs1: seq<Val>, n: nat, fuel: nat, cs: CState, r: Outcome)
    requires AtEnd(p, lt, s1, vs1, cs, r) && (r.Branch? ==> r.n == 0)
    requires |s.labels| == |s.cf| > 0 && Live(s) && Opens(s, bt, s1) && vs1 <= vs && |vs1| == |s1.stack|
    requires Inv(s2) && InRange(s2) && |s2.cf| > 0 && s2.depth == 0 && StepEnd(s2).Some?
    requires Top(s2).end == Top(s1).end && Top(s2).sig == bt && Top(s2).outerStack == |s1.stack| <= |s2.stack|
    requires s2.stack[..|s1.stack|] == s1.stack && SameFrame(s, StepEnd(s2).value) && StepEnd(s2).value.cf == s.cf
    requires Grows(StepEnd(s2).value.blocks, p.blocks)
    ensures CatchBlock(vs1, bt, r).Next?
    ensures SimOk(p, lt, s, StepEnd(s2).value, vs, n, fuel, cs, CatchBlock(vs1, bt, r))
  {
    hide Inv, InRange, Grows, Agrees, StepEnd, SameFrame;
    var bst, lo := if r.Next? then r.stack else r.bstack, if r.Next? then r.locals else r.blocals;
    var h := |s1.stack|;
    assert s1.stack[..h] == s1.stack && vs1[..h] == vs1;
    LandsFrom(p, lt, s1, s2, Top(s1).end, bt, h, cs, vs1, vs1, bst, lo);
    ArriveSim(p, lt, s2, cs, vs1, bst, lo);
    var us := Unwound(vs1, h, bt, bst);
    assert CatchBlock(vs1, bt, r) == Next(us, lo) by {
      assert vs1 + [] == vs1;
    }
    assert us[..Top(s).outerStack] == vs1[..Top(s).outerStack] == vs[..Top(s).outerStack];
  }

  /** A state waiting for the end of the frame s1 opened in s. */
  ghost predicate Closing(s: TState, bt: BlockType, s1: TState, s2: TState) {
    && |s.labels| == |s.cf| > 0 && Live(s) && Opens(s, bt, s1)
    && Inv(s2) && InRange(s2) && |s2.cf| > 0 && s2.depth == 0 && StepEnd(s2).Some?
    && Top(s2).end == Top(s1).end && Top(s2).sig == bt && Top(s2).outerStack == |s1.stack| <= |s2.stack|
    && s2.stack[..|s1.stack|] == s1.stack && SameFrame(s, StepEnd(s2).value) && StepEnd(s2).value.cf == s.cf
  }

  /** From the outcome of a body translated from s1 to s2, over the end met in s4, to s. */
  lemma EndSim(p: Prog, lt: seq<WTy>, s: TState, bt: BlockType, s1: TState, s2: TState, s4: TState,
               vs: seq<Val>, vs1: seq<Val>, n: nat, fuel: nat, cs: CState, r: Outcome) returns (k: nat)
    requires SimOk(p, lt, s1, s2, vs1, n, fuel, cs, r) && Core(s1) && |vs1| == |s1.stack| && vs1 <= vs
    requires SameFrame(s1, s2) && Closing(s, bt, s1, s4) && Last(s1.labels) == BlockEntry(bt, Top(s1).end)
    requires Inv(s2) && InRange(s2) && CloseFrame(s2).Some? && Grows(CloseFrame(s2).value.blocks, p.blocks)
    requires Grows(StepEnd(s4).value.blocks, p.blocks)
    ensures SimOk(p, lt, s, StepEnd(s4).value, vs, n + k, fuel, RunN(p, cs, k), CatchBlock(vs1, bt, r))
  {
    hide Inv, Core, InRange, Grows, StepEnd, SameFrame, CloseFrame, RunN, Lands, SimOk, AtEnd;
    RunZero(p, cs);
    k := 0;
    if r.Next? {
      k := 1;
      FallsOff(p, lt, s1, s2, vs1, n, fuel, cs, r);
      CatchSim(p, lt, s, bt, s1, s4, vs, vs1, n + k, fuel, RunN(p, cs, 1), r);
    } else if r.Branch? && r.n == 0 {
      BranchesOut(p, lt, s1, s2, vs1, n, fuel, cs, r);
      CatchSim(p, lt, s, bt, s1, s4, vs, vs1, n, fuel, cs, r);
    } else {
      OuterSim(p, lt, s, bt, s1, s2, StepEnd(s4).value, vs, vs1, n, fuel, cs, r);
    }
  }

  /** What is known where a nested body ends. */
  lemma NestFacts(locals: seq<WTy>, s: TState, s1: TState, bt: BlockType, body: Code)
    requires Inv(s) && |s.cf| > 0 && Live(s) && Inv(s1) && Opens(s, bt, s1) && Nest(locals, s1, body).Some?
    ensures Trans(locals, s1, body).Some? && Core(s1)
    ensures var s2 := Trans(locals, s1, body).value;
            && Closing(s, bt, s1, s2) && StepEnd(s2) == Nest(locals, s1, body) && SameFrame(s1, s2)
            && CloseFrame(s2).Some? && Grows(CloseFrame(s2).value.blocks, StepEnd(s2).value.blocks)
            && Grows(s2.blocks, StepEnd(s2).value.blocks)
  {
    hide Inv, Core, Ready, StepEnd, Step, CloseFrame, Grows, Kept;
    var s2 := Trans(locals, s1, body).value;
    InvFacts(s);
    InvFacts(s1);
    BodyFrame(locals, s1, body);
    InvFacts(s2);
    EndTick(locals, s, s1, bt, s2);
    TickIsStep(locals, s2, TEnd);
    EndShape(s2);
    InvCore(s1);
  }

  lemma InvCore(s: TState)
    requires Inv(s)
    ensures Core(s)
  {
  }
}
